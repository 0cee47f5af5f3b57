/** The item-slot header: compact ASCII JSON out, any text in (mcp_core/context.py). JSON text
    is as in RFC 8259, read the way Python's `json.loads` reads it. */
module SlotCodec {
  import opened Options

  /** Python strings are sequences of code points, surrogates included. */
  type Code = c: int | 0 <= c < 0x110000

  type Text = seq<Code>

  datatype Json = JString(text: Text) | JArray(items: seq<Json>) | JOther

  datatype Parsed<T> = Parsed(value: T, next: nat)

  const QUOTE: Code := 34
  const BACKSLASH: Code := 92
  const COMMA: Code := 44
  const OPEN: Code := 91
  const CLOSE: Code := 93
  const LETTER_U: Code := 117

  predicate High(c: int) {
    0xD800 <= c < 0xDC00
  }

  predicate Low(c: int) {
    0xDC00 <= c < 0xE000
  }

  // ----- Writing strings --------------------------------------------------------------

  function HexDigit(d: int): Code
    requires 0 <= d < 16
  {
    if d < 10 then 48 + d else 87 + d
  }

  /** A `\uXXXX` escape. */
  function Escape(c: int): (e: Text)
    requires 0 <= c < 0x10000
    ensures |e| == 6 && e[0] == BACKSLASH && e[1] == LETTER_U
  {
    [BACKSLASH, LETTER_U, HexDigit(c / 4096), HexDigit(c / 256 % 16), HexDigit(c / 16 % 16), HexDigit(c % 16)]
  }

  /** The letter of a two-character escape, or 0. */
  function ShortEscape(c: int): Code {
    if c == 34 then 34
    else if c == 92 then 92
    else if c == 10 then 110
    else if c == 13 then 114
    else if c == 9 then 116
    else if c == 12 then 102
    else if c == 8 then 98
    else 0
  }

  function EncodeCode(c: Code): (e: Text)
    ensures |e| > 0
  {
    if ShortEscape(c) != 0 then [BACKSLASH, ShortEscape(c)]
    else if 32 <= c <= 126 then [c]
    else if c < 0x10000 then Escape(c)
    else Escape(0xD800 + (c - 0x10000) / 1024) + Escape(0xDC00 + (c - 0x10000) % 1024)
  }

  /** The escaped form of `s` from position `n` on. */
  function EncodeFrom(s: Text, n: nat): Text
    requires n <= |s|
    decreases |s| - n
  {
    if n == |s| then [] else EncodeCode(s[n]) + EncodeFrom(s, n + 1)
  }

  // ----- Reading strings --------------------------------------------------------------

  function HexValue(c: int): (r: Option<int>)
    ensures r.Some? ==> 0 <= r.value < 16
  {
    if 48 <= c <= 57 then Some(c - 48)
    else if 97 <= c <= 102 then Some(c - 87)
    else if 65 <= c <= 70 then Some(c - 55)
    else None
  }

  /** Four hexadecimal digits at position `i`. */
  function Hex4(t: Text, i: nat): (r: Option<int>)
    ensures r.Some? ==> i + 4 <= |t| && 0 <= r.value < 0x10000
  {
    if i + 4 > |t| then None
    else
      var a, b, c, d := HexValue(t[i]), HexValue(t[i + 1]), HexValue(t[i + 2]), HexValue(t[i + 3]);
      if a.None? || b.None? || c.None? || d.None? then None
      else Some(4096 * a.value + 256 * b.value + 16 * c.value + d.value)
  }

  /** What follows a backslash stands for, or 0 for none of the short escapes. */
  function Unescape(c: int): Code {
    if c == 34 then 34
    else if c == 92 then 92
    else if c == 47 then 47
    else if c == 110 then 10
    else if c == 114 then 13
    else if c == 116 then 9
    else if c == 102 then 12
    else if c == 98 then 8
    else 0
  }

  /** One character of a string at `i`; a high surrogate takes a low one that follows it. */
  function ScanCode(t: Text, i: nat): (r: Option<Parsed<Code>>)
    requires i < |t|
    ensures r.Some? ==> i < r.value.next <= |t|
  {
    if t[i] < 32 then None
    else if t[i] != BACKSLASH then Some(Parsed(t[i], i + 1))
    else if i + 1 >= |t| then None
    else if Unescape(t[i + 1]) != 0 then Some(Parsed(Unescape(t[i + 1]), i + 2))
    else if t[i + 1] != LETTER_U then None
    else
      var first := Hex4(t, i + 2);
      if first.None? then None
      else if !High(first.value) || i + 7 >= |t| || t[i + 6] != BACKSLASH || t[i + 7] != LETTER_U
      then Some(Parsed(first.value, i + 6))
      else
        var second := Hex4(t, i + 8);
        if second.None? then None
        else if Low(second.value)
        then Some(Parsed(0x10000 + (first.value - 0xD800) * 1024 + (second.value - 0xDC00), i + 12))
        else Some(Parsed(first.value, i + 6))
  }

  /** The rest of a string whose opening quote is behind position `i`. */
  function ScanString(t: Text, i: nat): (r: Option<Parsed<Text>>)
    ensures r.Some? ==> i < r.value.next <= |t|
    decreases |t| - i
  {
    if i >= |t| then None
    else if t[i] == QUOTE then Some(Parsed([], i + 1))
    else
      var c := ScanCode(t, i);
      if c.None? then None
      else
        var rest := ScanString(t, c.value.next);
        if rest.None? then None else Some(Parsed([c.value.value] + rest.value.value, rest.value.next))
  }

  // ----- Reading values ---------------------------------------------------------------

  function SkipSpace(t: Text, i: nat): (j: nat)
    ensures i <= j && (i <= |t| ==> j <= |t|)
    decreases |t| - i
  {
    if i < |t| && (t[i] == 32 || t[i] == 9 || t[i] == 10 || t[i] == 13) then SkipSpace(t, i + 1) else i
  }

  predicate Digit(t: Text, i: nat) {
    i < |t| && 48 <= t[i] <= 57
  }

  function SkipDigits(t: Text, i: nat): (j: nat)
    ensures i <= j && (i <= |t| ==> j <= |t|)
    decreases |t| - i
  {
    if Digit(t, i) then SkipDigits(t, i + 1) else i
  }

  predicate Spells(t: Text, i: nat, word: string) {
    i + |word| <= |t| && forall k :: 0 <= k < |word| ==> t[i + k] == word[k] as int
  }

  /** The interpreter converts no integer of more digits; the refusal is a ValueError. */
  const MAX_DIGITS: nat := 4300

  /** The end of the number at `i`, or `i` if there is none that can be read. */
  function SkipNumber(t: Text, i: nat): (j: nat)
    requires i <= |t|
    ensures i <= j <= |t|
  {
    var a := if i < |t| && t[i] == 45 then i + 1 else i;
    if !Digit(t, a) then i
    else
      var b := if t[a] == 48 then a + 1 else SkipDigits(t, a);
      var c := if b < |t| && t[b] == 46 && Digit(t, b + 1) then SkipDigits(t, b + 1) else b;
      var sign := if c + 1 < |t| && (t[c + 1] == 43 || t[c + 1] == 45) then c + 2 else c + 1;
      var end := if c < |t| && (t[c] == 101 || t[c] == 69) && Digit(t, sign) then SkipDigits(t, sign) else c;
      if end == b && b - a > MAX_DIGITS then i else end
  }

  /** Literals and numbers. */
  function Scalar(t: Text, i: nat): (r: Option<Parsed<Json>>)
    requires i < |t|
    ensures r.Some? ==> i < r.value.next <= |t|
  {
    if Spells(t, i, "null") || Spells(t, i, "true") then Some(Parsed(JOther, i + 4))
    else if Spells(t, i, "false") then Some(Parsed(JOther, i + 5))
    else if SkipNumber(t, i) > i then Some(Parsed(JOther, SkipNumber(t, i)))
    else if Spells(t, i, "NaN") then Some(Parsed(JOther, i + 3))
    else if Spells(t, i, "Infinity") then Some(Parsed(JOther, i + 8))
    else if Spells(t, i, "-Infinity") then Some(Parsed(JOther, i + 9))
    else None
  }

  function Value(t: Text, i: nat): (r: Option<Parsed<Json>>)
    ensures r.Some? ==> i < r.value.next <= |t|
    decreases |t| - i, 1
  {
    if i >= |t| then None
    else if t[i] == QUOTE then
      var s := ScanString(t, i + 1);
      if s.None? then None else Some(Parsed(JString(s.value.value), s.value.next))
    else if t[i] == OPEN then
      var j := SkipSpace(t, i + 1);
      if j < |t| && t[j] == CLOSE then Some(Parsed(JArray([]), j + 1))
      else
        var items := Items(t, j);
        if items.None? then None else Some(Parsed(JArray(items.value.value), items.value.next))
    else if t[i] == 123 then
      var j := SkipSpace(t, i + 1);
      if j < |t| && t[j] == 125 then Some(Parsed(JOther, j + 1))
      else
        var end := Members(t, j);
        if end.None? then None else Some(Parsed(JOther, end.value))
    else Scalar(t, i)
  }

  /** The items of an array, its closing bracket included. */
  function Items(t: Text, i: nat): (r: Option<Parsed<seq<Json>>>)
    ensures r.Some? ==> i < r.value.next <= |t|
    decreases |t| - i, 2
  {
    var v := Value(t, i);
    if v.None? then None
    else
      var j := SkipSpace(t, v.value.next);
      if j >= |t| then None
      else if t[j] == CLOSE then Some(Parsed([v.value.value], j + 1))
      else if t[j] != COMMA then None
      else
        var rest := Items(t, SkipSpace(t, j + 1));
        if rest.None? then None else Some(Parsed([v.value.value] + rest.value.value, rest.value.next))
  }

  /** Where the value of the object member at `i` starts, behind its name and colon. */
  function MemberValue(t: Text, i: nat): (r: Option<nat>)
    ensures r.Some? ==> i < r.value <= |t|
  {
    if i >= |t| || t[i] != QUOTE then None
    else
      var key := ScanString(t, i + 1);
      if key.None? then None
      else
        var colon := SkipSpace(t, key.value.next);
        if colon >= |t| || t[colon] != 58 then None else Some(SkipSpace(t, colon + 1))
  }

  /** The members of an object, its closing brace included; only where they end matters. */
  function Members(t: Text, i: nat): (r: Option<nat>)
    ensures r.Some? ==> i < r.value <= |t|
    decreases |t| - i, 2
  {
    var start := MemberValue(t, i);
    if start.None? then None
    else
      var v := Value(t, start.value);
      if v.None? then None
      else
        var j := SkipSpace(t, v.value.next);
        if j >= |t| then None
        else if t[j] == 125 then Some(j + 1)
        else if t[j] != COMMA then None
        else Members(t, SkipSpace(t, j + 1))
  }

  /** `json.loads`; `None` is its ValueError. */
  function Loads(t: Text): Option<Json> {
    var v := Value(t, SkipSpace(t, 0));
    if v.None? || SkipSpace(t, v.value.next) != |t| then None else Some(v.value.value)
  }

  // ----- Reading values with bounded recursion ----------------------------------------

  datatype Scan<T> = Good(value: T, next: nat) | Malformed | TooDeep

  function Plainly<T>(r: Option<Parsed<T>>): Scan<T> {
    if r.None? then Malformed else Good(r.value.value, r.value.next)
  }

  /** The scanner as it runs: each array or object it enters takes one of the `room` levels of
      recursion the interpreter has left, and without one it raises RecursionError. */
  function ValueWithin(t: Text, i: nat, room: nat): (r: Scan<Json>)
    ensures r.Good? ==> i < r.next <= |t|
    decreases |t| - i, 1
  {
    if i >= |t| then Malformed
    else if t[i] == QUOTE then
      var s := ScanString(t, i + 1);
      if s.None? then Malformed else Good(JString(s.value.value), s.value.next)
    else if t[i] == OPEN then
      var j := SkipSpace(t, i + 1);
      if room == 0 then TooDeep
      else if j < |t| && t[j] == CLOSE then Good(JArray([]), j + 1)
      else
        match ItemsWithin(t, j, room - 1)
        case Good(items, next) => Good(JArray(items), next)
        case Malformed => Malformed
        case TooDeep => TooDeep
    else if t[i] == 123 then
      var j := SkipSpace(t, i + 1);
      if room == 0 then TooDeep
      else if j < |t| && t[j] == 125 then Good(JOther, j + 1)
      else
        match MembersWithin(t, j, room - 1)
        case Good(_, next) => Good(JOther, next)
        case Malformed => Malformed
        case TooDeep => TooDeep
    else Plainly(Scalar(t, i))
  }

  function ItemsWithin(t: Text, i: nat, room: nat): (r: Scan<seq<Json>>)
    ensures r.Good? ==> i < r.next <= |t|
    decreases |t| - i, 2
  {
    match ValueWithin(t, i, room)
    case Malformed => Malformed
    case TooDeep => TooDeep
    case Good(v, next) =>
      var j := SkipSpace(t, next);
      if j >= |t| then Malformed
      else if t[j] == CLOSE then Good([v], j + 1)
      else if t[j] != COMMA then Malformed
      else
        var rest := ItemsWithin(t, SkipSpace(t, j + 1), room);
        if rest.Good? then Good([v] + rest.value, rest.next) else rest
  }

  function MembersWithin(t: Text, i: nat, room: nat): (r: Scan<()>)
    ensures r.Good? ==> i < r.next <= |t|
    decreases |t| - i, 2
  {
    var start := MemberValue(t, i);
    if start.None? then Malformed
    else
      match ValueWithin(t, start.value, room)
      case Malformed => Malformed
      case TooDeep => TooDeep
      case Good(v, next) =>
        var j := SkipSpace(t, next);
        if j >= |t| then Malformed
        else if t[j] == 125 then Good((), j + 1)
        else if t[j] != COMMA then Malformed
        else MembersWithin(t, SkipSpace(t, j + 1), room)
  }

  /** `json.loads` with `limit` levels of recursion left. */
  function LoadsWithin(t: Text, limit: nat): Scan<Json> {
    var v := ValueWithin(t, SkipSpace(t, 0), limit);
    if v.Good? && SkipSpace(t, v.next) != |t| then Malformed else v
  }

  function Max(a: nat, b: nat): nat {
    if a < b then b else a
  }

  /** How deep the text nests arrays and objects, as far as it can be read. */
  function ValueDepth(t: Text, i: nat): nat
    decreases |t| - i, 1
  {
    if i >= |t| || t[i] == QUOTE then 0
    else
      var j := SkipSpace(t, i + 1);
      if t[i] == OPEN then (if j < |t| && t[j] == CLOSE then 1 else 1 + ItemsDepth(t, j))
      else if t[i] == 123 then (if j < |t| && t[j] == 125 then 1 else 1 + MembersDepth(t, j))
      else 0
  }

  function ItemsDepth(t: Text, i: nat): nat
    decreases |t| - i, 2
  {
    var v := Value(t, i);
    if v.None? then ValueDepth(t, i)
    else
      var j := SkipSpace(t, v.value.next);
      if j >= |t| || t[j] != COMMA then ValueDepth(t, i)
      else Max(ValueDepth(t, i), ItemsDepth(t, SkipSpace(t, j + 1)))
  }

  function MembersDepth(t: Text, i: nat): nat
    decreases |t| - i, 2
  {
    var start := MemberValue(t, i);
    if start.None? then 0
    else
      var v := Value(t, start.value);
      if v.None? then ValueDepth(t, start.value)
      else
        var j := SkipSpace(t, v.value.next);
        if j >= |t| || t[j] != COMMA then ValueDepth(t, start.value)
        else Max(ValueDepth(t, start.value), MembersDepth(t, SkipSpace(t, j + 1)))
  }

  /** How deep a text nests. */
  function Nesting(t: Text): nat {
    ValueDepth(t, SkipSpace(t, 0))
  }

  /** Bounded scanning raises exactly on what nests deeper than the bound, and reads everything
      else as unbounded scanning does. */
  lemma {:induction false} WithinValue(t: Text, i: nat, room: nat)
    ensures ValueWithin(t, i, room) == if ValueDepth(t, i) > room then TooDeep else Plainly(Value(t, i))
    decreases |t| - i, 1
  {
    hide ScanString, Scalar;
    if i >= |t| {
    } else {
      var j := SkipSpace(t, i + 1);
      hide SkipSpace;
      if room > 0 && t[i] == OPEN && !(j < |t| && t[j] == CLOSE) {
        WithinItems(t, j, room - 1);
      } else if room > 0 && t[i] == 123 && !(j < |t| && t[j] == 125) {
        WithinMembers(t, j, room - 1);
      }
      hide Items, Members, ItemsWithin, MembersWithin, ItemsDepth, MembersDepth;
    }
  }

  lemma {:induction false} WithinItems(t: Text, i: nat, room: nat)
    ensures ItemsWithin(t, i, room) == if ItemsDepth(t, i) > room then TooDeep else Plainly(Items(t, i))
    decreases |t| - i, 2
  {
    hide SkipSpace, ValueWithin, ValueDepth, Value;
    WithinValue(t, i, room);
    var v := Value(t, i);
    if v.Some? {
      var j := SkipSpace(t, v.value.next);
      if j < |t| && t[j] == COMMA {
        WithinItems(t, SkipSpace(t, j + 1), room);
      }
    }
  }

  lemma {:induction false} WithinMembers(t: Text, i: nat, room: nat)
    ensures MembersWithin(t, i, room) ==
            if MembersDepth(t, i) > room then TooDeep
            else if Members(t, i).None? then Malformed else Good((), Members(t, i).value)
    decreases |t| - i, 2
  {
    hide MemberValue, SkipSpace, ValueWithin, ValueDepth, Value;
    var start := MemberValue(t, i);
    if start.Some? {
      WithinValue(t, start.value, room);
      if Value(t, start.value).Some? {
        var j := SkipSpace(t, Value(t, start.value).value.next);
        if j < |t| && t[j] == COMMA {
          WithinMembers(t, SkipSpace(t, j + 1), room);
        }
      }
    }
  }

  /** `json.loads` raises RecursionError exactly on a text that nests deeper than the limit. */
  lemma {:induction false} LoadsRaisesIff(t: Text, limit: nat)
    ensures LoadsWithin(t, limit) == TooDeep <==> Nesting(t) > limit
    ensures Nesting(t) <= limit ==>
              LoadsWithin(t, limit).Good? == Loads(t).Some?
              && (Loads(t).Some? ==> LoadsWithin(t, limit).value == Loads(t).value)
  {
    WithinValue(t, SkipSpace(t, 0), limit);
    hide ValueWithin, Value, ValueDepth, SkipSpace;
  }

  // ----- Writing values ---------------------------------------------------------------

  /** Only strings and arrays are ever written. */
  ghost predicate Plain(j: Json) {
    j.JString? || (j.JArray? && forall k :: 0 <= k < |j.items| ==> Plain(j.items[k]))
  }

  /** `json.dumps` with compact separators. */
  function Dumps(j: Json): Text {
    match j
    case JString(s) => [QUOTE] + (EncodeFrom(s, 0) + [QUOTE])
    case JArray(items) => if items == [] then [OPEN] + [CLOSE] else [OPEN] + DumpsItems(items, 0)
    case JOther => []
  }

  /** The items from position `n` on, with the closing bracket. */
  function DumpsItems(items: seq<Json>, n: nat): Text
    requires n < |items|
    decreases items, |items| - n
  {
    Dumps(items[n]) + (if n + 1 == |items| then [CLOSE] else [COMMA] + DumpsItems(items, n + 1))
  }

  // ----- Strings: reading what was written --------------------------------------------

  predicate TextAt(t: Text, i: nat, s: Text) {
    i + |s| <= |t| && forall k :: 0 <= k < |s| ==> t[i + k] == s[k]
  }

  lemma {:induction false} AtSplit(t: Text, i: nat, a: Text, b: Text)
    requires TextAt(t, i, a + b)
    ensures TextAt(t, i, a) && TextAt(t, i + |a|, b)
  {
    var s := a + b;
    assert forall k :: 0 <= k < |a| ==> s[k] == a[k];
    forall k | 0 <= k < |b|
      ensures t[i + |a| + k] == b[k]
    {
      assert t[i + (|a| + k)] == s[|a| + k];
    }
  }

  predicate PairAt(s: Text, n: nat) {
    n + 1 < |s| && High(s[n]) && Low(s[n + 1])
  }

  /** What comes back: adjacent surrogates that form a pair become the character they name. */
  function Joined(s: Text, n: nat): Text
    requires n <= |s|
    decreases |s| - n
  {
    if n == |s| then []
    else if PairAt(s, n) then [0x10000 + (s[n] - 0xD800) * 1024 + (s[n + 1] - 0xDC00)] + Joined(s, n + 2)
    else [s[n]] + Joined(s, n + 1)
  }

  lemma {:induction false} HexBack(c: int, t: Text, i: nat)
    requires 0 <= c < 0x10000 && TextAt(t, i, Escape(c))
    ensures i + 6 <= |t| && t[i] == BACKSLASH && t[i + 1] == LETTER_U && Hex4(t, i + 2) == Some(c)
  {
    var e := Escape(c);
    assert t[i + 0] == e[0] && t[i + 1] == e[1];
    HexDigitBack(c / 4096);
    HexDigitBack(c / 256 % 16);
    HexDigitBack(c / 16 % 16);
    HexDigitBack(c % 16);
    Digits16(c);
    hide HexDigit, HexValue;
    assert t[i + 2] == e[2] && t[i + 3] == e[3] && t[i + 4] == e[4] && t[i + 5] == e[5];
  }

  lemma {:induction false} HexDigitBack(d: int)
    requires 0 <= d < 16
    ensures HexValue(HexDigit(d)) == Some(d)
  {
  }

  lemma {:induction false} Digits16(c: int)
    requires 0 <= c < 0x10000
    ensures 4096 * (c / 4096) + 256 * (c / 256 % 16) + 16 * (c / 16 % 16) + c % 16 == c
  {
    assert c / 16 == 16 * (c / 256) + c / 16 % 16;
    assert c / 256 == 16 * (c / 4096) + c / 256 % 16;
  }

  /** Text that a high surrogate before it does not join with. */
  ghost predicate NoLowAt(t: Text, i: nat) {
    && i < |t|
    && (i + 1 < |t| && t[i] == BACKSLASH && t[i + 1] == LETTER_U ==> Hex4(t, i + 2).Some? && !Low(Hex4(t, i + 2).value))
  }

  lemma {:induction false} CodeNotLow(t: Text, i: nat, c: Code)
    requires TextAt(t, i, EncodeCode(c)) && !Low(c)
    ensures NoLowAt(t, i)
  {
    var e := EncodeCode(c);
    assert t[i + 0] == e[0] && (|e| > 1 ==> t[i + 1] == e[1]);
    if ShortEscape(c) == 0 && !(32 <= c <= 126) {
      if c < 0x10000 {
        HexBack(c, t, i);
      } else {
        AtSplit(t, i, Escape(0xD800 + (c - 0x10000) / 1024), Escape(0xDC00 + (c - 0x10000) % 1024));
        HexBack(0xD800 + (c - 0x10000) / 1024, t, i);
      }
      hide Escape, Hex4;
    }
  }

  /** What follows the code before position `n` is not taken for its low surrogate. */
  lemma {:induction false} NextIsNotLow(t: Text, i: nat, s: Text, n: nat)
    requires n <= |s| && TextAt(t, i, EncodeFrom(s, n) + [QUOTE])
    requires n < |s| ==> !Low(s[n])
    ensures NoLowAt(t, i)
  {
    hide EncodeCode, Hex4;
    AtSplit(t, i, EncodeFrom(s, n), [QUOTE]);
    if n < |s| {
      AtSplit(t, i, EncodeCode(s[n]), EncodeFrom(s, n + 1));
      CodeNotLow(t, i, s[n]);
    } else {
      assert t[i + 0] == [QUOTE][0];
    }
  }

  lemma {:induction false} CodeBack(t: Text, i: nat, c: Code)
    requires TextAt(t, i, EncodeCode(c)) && (High(c) ==> NoLowAt(t, i + |EncodeCode(c)|))
    ensures i < |t| && t[i] != QUOTE && ScanCode(t, i) == Some(Parsed(c, i + |EncodeCode(c)|))
  {
    var e := EncodeCode(c);
    assert t[i + 0] == e[0] && (|e| > 1 ==> t[i + 1] == e[1]);
    if ShortEscape(c) == 0 && !(32 <= c <= 126) {
      if c < 0x10000 {
        HexBack(c, t, i);
        hide Escape, Hex4;
      } else {
        JoinBack(c);
        PairBack(t, i, 0xD800 + (c - 0x10000) / 1024, 0xDC00 + (c - 0x10000) % 1024);
        hide Escape, ScanCode;
      }
    }
  }

  lemma {:induction false} JoinBack(c: int)
    requires 0x10000 <= c < 0x110000
    ensures High(0xD800 + (c - 0x10000) / 1024) && Low(0xDC00 + (c - 0x10000) % 1024)
    ensures 0x10000 + ((c - 0x10000) / 1024) * 1024 + (c - 0x10000) % 1024 == c
  {
  }

  lemma {:induction false} PairBack(t: Text, i: nat, high: int, low: int)
    requires High(high) && Low(low) && TextAt(t, i, Escape(high) + Escape(low))
    ensures i < |t| && t[i] != QUOTE
    ensures ScanCode(t, i) == Some(Parsed(0x10000 + (high - 0xD800) * 1024 + (low - 0xDC00), i + 12))
  {
    AtSplit(t, i, Escape(high), Escape(low));
    HexBack(high, t, i);
    HexBack(low, t, i + 6);
    hide Escape, Hex4;
  }

  lemma {:induction false} EncodedLength(t: Text, i: nat, s: Text, n: nat)
    requires n < |s| && TextAt(t, i, EncodeFrom(s, n) + [QUOTE])
    ensures TextAt(t, i, EncodeCode(s[n])) && TextAt(t, i + |EncodeCode(s[n])|, EncodeFrom(s, n + 1) + [QUOTE])
  {
    hide EncodeCode, TextAt;
    assert EncodeFrom(s, n) + [QUOTE] == EncodeCode(s[n]) + (EncodeFrom(s, n + 1) + [QUOTE]);
    AtSplit(t, i, EncodeCode(s[n]), EncodeFrom(s, n + 1) + [QUOTE]);
  }

  lemma {:induction false} PairEncoded(t: Text, i: nat, s: Text, n: nat)
    requires PairAt(s, n) && TextAt(t, i, EncodeFrom(s, n) + [QUOTE])
    ensures TextAt(t, i, Escape(s[n]) + Escape(s[n + 1])) && TextAt(t, i + 12, EncodeFrom(s, n + 2) + [QUOTE])
    ensures |EncodeFrom(s, n)| == 12 + |EncodeFrom(s, n + 2)|
  {
    var pair, rest := Escape(s[n]) + Escape(s[n + 1]), EncodeFrom(s, n + 2) + [QUOTE];
    assert EncodeFrom(s, n) + [QUOTE] == pair + rest;
    hide Escape;
    AtSplit(t, i, pair, rest);
  }

  /** A written string reads back, with surrogate pairs joined. */
  lemma {:induction false} ScanBack(t: Text, i: nat, s: Text, n: nat)
    requires n <= |s| && TextAt(t, i, EncodeFrom(s, n) + [QUOTE])
    ensures ScanString(t, i) == Some(Parsed(Joined(s, n), i + |EncodeFrom(s, n)| + 1))
    decreases |s| - n
  {
    hide *;
    if n == |s| {
      EmptyString(t, i, s);
    } else if PairAt(s, n) {
      PairSides(s, n);
      PairEncoded(t, i, s, n);
      PairBack(t, i, s[n], s[n + 1]);
      ScanBack(t, i + 12, s, n + 2);
      ScanNext(t, i);
      JoinedNext(s, n);
    } else {
      EncodedLength(t, i, s, n);
      var next := i + |EncodeCode(s[n])|;
      if High(s[n]) {
        NotPair(s, n);
        NextIsNotLow(t, next, s, n + 1);
      }
      CodeBack(t, i, s[n]);
      ScanBack(t, next, s, n + 1);
      ScanNext(t, i);
      JoinedNext(s, n);
    }
  }

  lemma {:induction false} ScanNext(t: Text, i: nat)
    requires i < |t| && t[i] != QUOTE && ScanCode(t, i).Some?
    ensures var c := ScanCode(t, i).value; var rest := ScanString(t, c.next);
            rest.Some? ==> ScanString(t, i) == Some(Parsed([c.value] + rest.value.value, rest.value.next))
  {
    hide ScanCode;
  }

  lemma {:induction false} JoinedNext(s: Text, n: nat)
    requires n < |s|
    ensures PairAt(s, n) ==>
              Joined(s, n) == [0x10000 + (s[n] - 0xD800) * 1024 + (s[n + 1] - 0xDC00)] + Joined(s, n + 2)
    ensures !PairAt(s, n) ==>
              Joined(s, n) == [s[n]] + Joined(s, n + 1) && |EncodeFrom(s, n)| == |EncodeCode(s[n])| + |EncodeFrom(s, n + 1)|
  {
    hide EncodeCode;
  }

  lemma {:induction false} PairSides(s: Text, n: nat)
    requires PairAt(s, n)
    ensures n + 1 < |s| && High(s[n]) && Low(s[n + 1])
  {
  }

  lemma {:induction false} NotPair(s: Text, n: nat)
    requires n < |s| && High(s[n]) && !PairAt(s, n)
    ensures n + 1 < |s| ==> !Low(s[n + 1])
  {
  }

  lemma {:induction false} EmptyString(t: Text, i: nat, s: Text)
    requires TextAt(t, i, EncodeFrom(s, |s|) + [QUOTE])
    ensures ScanString(t, i) == Some(Parsed(Joined(s, |s|), i + |EncodeFrom(s, |s|)| + 1))
  {
    EndQuote(t, i);
  }

  lemma {:induction false} EndQuote(t: Text, i: nat)
    requires TextAt(t, i, [] + [QUOTE])
    ensures i < |t| && t[i] == QUOTE
  {
    assert t[i + 0] == ([] + [QUOTE])[0];
  }

  // ----- Values: reading what was written ---------------------------------------------

  function JoinedJson(j: Json): Json {
    match j
    case JString(s) => JString(Joined(s, 0))
    case JArray(items) => JArray(JoinedItems(items, 0))
    case JOther => JOther
  }

  function JoinedItems(items: seq<Json>, n: nat): seq<Json>
    requires n <= |items|
    decreases items, |items| - n
  {
    if n == |items| then [] else [JoinedJson(items[n])] + JoinedItems(items, n + 1)
  }

  lemma {:induction false} FirstCode(t: Text, i: nat, c: Code, rest: Text)
    requires TextAt(t, i, [c] + rest)
    ensures i < |t| && t[i] == c && TextAt(t, i + 1, rest)
  {
    assert t[i + 0] == ([c] + rest)[0];
    AtSplit(t, i, [c], rest);
  }

  lemma {:induction false} NoSpace(t: Text, i: nat)
    requires i < |t| && (t[i] == QUOTE || t[i] == OPEN || t[i] == CLOSE || t[i] == COMMA)
    ensures SkipSpace(t, i) == i
  {
  }

  /** A written value starts with a quote or a bracket. */
  lemma {:induction false} Starts(t: Text, i: nat, j: Json)
    requires Plain(j) && TextAt(t, i, Dumps(j))
    ensures i < |t| && t[i] == if j.JString? then QUOTE else OPEN
  {
    match j
    case JString(s) => FirstCode(t, i, QUOTE, EncodeFrom(s, 0) + [QUOTE]);
    case JArray(items) => FirstCode(t, i, OPEN, if items == [] then [CLOSE] else DumpsItems(items, 0));
  }

  lemma {:induction false} ValueBack(t: Text, i: nat, j: Json)
    requires Plain(j) && TextAt(t, i, Dumps(j))
    ensures Value(t, i) == Some(Parsed(JoinedJson(j), i + |Dumps(j)|))
    decreases j, 0
  {
    hide TextAt, EncodeFrom, ScanString, SkipSpace;
    Starts(t, i, j);
    match j
    case JString(s) =>
      FirstCode(t, i, QUOTE, EncodeFrom(s, 0) + [QUOTE]);
      ScanBack(t, i + 1, s, 0);
    case JArray(items) =>
      if items == [] {
        FirstCode(t, i, OPEN, [CLOSE]);
        LastClose(t, i + 1);
      } else {
        FirstCode(t, i, OPEN, DumpsItems(items, 0));
        ItemsStart(t, i + 1, items, 0);
        ItemsBack(t, i + 1, items, 0);
      }
  }

  lemma {:induction false} LastClose(t: Text, i: nat)
    requires TextAt(t, i, [CLOSE])
    ensures i < |t| && t[i] == CLOSE && SkipSpace(t, i) == i
  {
    assert t[i + 0] == [CLOSE][0];
  }

  lemma {:induction false} ItemsStart(t: Text, i: nat, items: seq<Json>, n: nat)
    requires n < |items| && Plain(items[n]) && TextAt(t, i, DumpsItems(items, n))
    ensures TextAt(t, i, Dumps(items[n])) && i < |t| && t[i] != CLOSE && SkipSpace(t, i) == i
  {
    AtSplit(t, i, Dumps(items[n]), if n + 1 == |items| then [CLOSE] else [COMMA] + DumpsItems(items, n + 1));
    Starts(t, i, items[n]);
    NoSpace(t, i);
  }

  lemma {:induction false} ItemsBack(t: Text, i: nat, items: seq<Json>, n: nat)
    requires n < |items| && (forall k :: n <= k < |items| ==> Plain(items[k])) && TextAt(t, i, DumpsItems(items, n))
    ensures Items(t, i) == Some(Parsed(JoinedItems(items, n), i + |DumpsItems(items, n)|))
    decreases items, |items| - n
  {
    hide *;
    var next := i + |Dumps(items[n])|;
    ItemsStart(t, i, items, n);
    ValueBack(t, i, items[n]);
    ItemsRest(t, i, items, n);
    if n + 1 == |items| {
      LastClose(t, next);
      LastItem(t, i, next);
      JoinedItem(items, n);
    } else {
      NoSpace(t, next);
      ItemsStart(t, next + 1, items, n + 1);
      ItemsBack(t, next + 1, items, n + 1);
      NextItem(t, i, next);
      JoinedItem(items, n);
    }
  }

  lemma {:induction false} ItemsRest(t: Text, i: nat, items: seq<Json>, n: nat)
    requires n < |items| && TextAt(t, i, DumpsItems(items, n))
    ensures var next := i + |Dumps(items[n])|;
            if n + 1 == |items| then TextAt(t, next, [CLOSE])
            else next < |t| && t[next] == COMMA && TextAt(t, next + 1, DumpsItems(items, n + 1))
  {
    hide TextAt, Dumps;
    var next := i + |Dumps(items[n])|;
    AtSplit(t, i, Dumps(items[n]), if n + 1 == |items| then [CLOSE] else [COMMA] + DumpsItems(items, n + 1));
    if n + 1 < |items| {
      FirstCode(t, next, COMMA, DumpsItems(items, n + 1));
    }
  }

  lemma {:induction false} JoinedItem(items: seq<Json>, n: nat)
    requires n < |items|
    ensures JoinedItems(items, n) == [JoinedJson(items[n])] + JoinedItems(items, n + 1)
    ensures n + 1 == |items| ==> JoinedItems(items, n) == [JoinedJson(items[n])] && |DumpsItems(items, n)| == |Dumps(items[n])| + 1
    ensures n + 1 < |items| ==> |DumpsItems(items, n)| == |Dumps(items[n])| + 1 + |DumpsItems(items, n + 1)|
  {
    hide Dumps;
  }

  lemma {:induction false} LastItem(t: Text, i: nat, next: nat)
    requires Value(t, i).Some? && Value(t, i).value.next == next
    requires next < |t| && t[next] == CLOSE && SkipSpace(t, next) == next
    ensures Items(t, i) == Some(Parsed([Value(t, i).value.value], next + 1))
  {
    hide Value;
  }

  lemma {:induction false} NextItem(t: Text, i: nat, next: nat)
    requires Value(t, i).Some? && Value(t, i).value.next == next
    requires next < |t| && t[next] == COMMA && SkipSpace(t, next) == next && SkipSpace(t, next + 1) == next + 1
    requires Items(t, next + 1).Some?
    ensures Items(t, i) == Some(Parsed([Value(t, i).value.value] + Items(t, next + 1).value.value, Items(t, next + 1).value.next))
  {
    hide Value, SkipSpace;
  }

  // ----- How deep written values nest -------------------------------------------------

  function Depth(j: Json): nat {
    match j
    case JArray(items) => if items == [] then 1 else 1 + DepthFrom(items, 0)
    case _ => 0
  }

  function DepthFrom(items: seq<Json>, n: nat): nat
    requires n < |items|
    decreases items, |items| - n
  {
    if n + 1 == |items| then Depth(items[n]) else Max(Depth(items[n]), DepthFrom(items, n + 1))
  }

  /** What was written nests as deep as the value it was written from. */
  lemma {:induction false} DepthBack(t: Text, i: nat, j: Json)
    requires Plain(j) && TextAt(t, i, Dumps(j))
    ensures ValueDepth(t, i) == Depth(j)
    decreases j, 0
  {
    hide TextAt, EncodeFrom, SkipSpace, ItemsDepth;
    Starts(t, i, j);
    match j
    case JString(s) =>
    case JArray(items) =>
      if items == [] {
        FirstCode(t, i, OPEN, [CLOSE]);
        LastClose(t, i + 1);
      } else {
        FirstCode(t, i, OPEN, DumpsItems(items, 0));
        ItemsStart(t, i + 1, items, 0);
        ItemsDepthBack(t, i + 1, items, 0);
      }
  }

  lemma {:induction false} ItemsDepthBack(t: Text, i: nat, items: seq<Json>, n: nat)
    requires n < |items| && (forall k :: n <= k < |items| ==> Plain(items[k])) && TextAt(t, i, DumpsItems(items, n))
    ensures ItemsDepth(t, i) == DepthFrom(items, n)
    decreases items, |items| - n
  {
    hide TextAt, Dumps, DumpsItems, Value, ValueDepth, Depth, SkipSpace, Plain, JoinedJson;
    var next := i + |Dumps(items[n])|;
    ItemsStart(t, i, items, n);
    ValueBack(t, i, items[n]);
    DepthBack(t, i, items[n]);
    ItemsRest(t, i, items, n);
    if n + 1 == |items| {
      LastClose(t, next);
    } else {
      NoSpace(t, next);
      ItemsStart(t, next + 1, items, n + 1);
      ItemsDepthBack(t, next + 1, items, n + 1);
    }
  }

  /** A text cannot nest deeper than it is long. */
  lemma {:induction false} DepthBound(t: Text, i: nat)
    ensures ValueDepth(t, i) <= if i < |t| then |t| - i else 0
    decreases |t| - i, 1
  {
    if i < |t| {
      var j := SkipSpace(t, i + 1);
      hide SkipSpace, ItemsDepth, MembersDepth;
      if t[i] == OPEN {
        ItemsDepthBound(t, j);
      } else if t[i] == 123 {
        MembersDepthBound(t, j);
      }
    }
  }

  lemma {:induction false} ItemsDepthBound(t: Text, i: nat)
    ensures ItemsDepth(t, i) <= if i < |t| then |t| - i else 0
    decreases |t| - i, 2
  {
    hide SkipSpace, ValueDepth, Value;
    DepthBound(t, i);
    if Value(t, i).Some? {
      var j := SkipSpace(t, Value(t, i).value.next);
      if j < |t| && t[j] == COMMA {
        ItemsDepthBound(t, SkipSpace(t, j + 1));
      }
    }
  }

  lemma {:induction false} MembersDepthBound(t: Text, i: nat)
    ensures MembersDepth(t, i) <= if i < |t| then |t| - i else 0
    decreases |t| - i, 2
  {
    hide MemberValue, SkipSpace, ValueDepth, Value;
    var start := MemberValue(t, i);
    if start.Some? {
      DepthBound(t, start.value);
      if Value(t, start.value).Some? {
        var j := SkipSpace(t, Value(t, start.value).value.next);
        if j < |t| && t[j] == COMMA {
          MembersDepthBound(t, SkipSpace(t, j + 1));
        }
      }
    }
  }

  /** The failing input: a text of `n` brackets nests that deep. */
  lemma {:induction false} BracketsNest(t: Text, i: nat)
    requires i <= |t| && forall k :: 0 <= k < |t| ==> t[k] == OPEN
    ensures ValueDepth(t, i) >= |t| - i
    decreases |t| - i
  {
    if i == |t| {
    } else {
      BracketsNest(t, i + 1);
      assert SkipSpace(t, i + 1) == i + 1;
      hide Value, SkipSpace;
    }
  }

  // ----- Slots ------------------------------------------------------------------------

  const MAX_SLOTS: nat := 64
  const MAX_CLAIM_LENGTH: nat := 200
  const MAX_HEADER_LENGTH: nat := 8192

  datatype Slot = Slot(itemType: Text, name: Text, itemKey: Text)

  predicate ValidField(f: Text) {
    0 < |f| <= MAX_CLAIM_LENGTH
  }

  predicate ValidSlot(s: Slot) {
    ValidField(s.itemType) && ValidField(s.name) && ValidField(s.itemKey)
  }

  function Row(s: Slot): Json {
    JArray([JString(s.itemType), JString(s.name), JString(s.itemKey)])
  }

  function Rows(slots: seq<Slot>, n: nat): seq<Json>
    requires n <= |slots|
  {
    if n == 0 then [] else Rows(slots, n - 1) + [Row(slots[n - 1])]
  }

  function AtMost(k: nat, n: nat): nat {
    if k < n then k else n
  }

  /** `encode_item_slots`: the first 64 slots. */
  function EncodeItemSlots(slots: seq<Slot>): Text {
    Dumps(JArray(Rows(slots, AtMost(|slots|, MAX_SLOTS))))
  }

  /** The slot an array entry stands for, if it is one. */
  function SlotOf(j: Json): Option<Slot> {
    if j.JArray? && |j.items| == 3 && j.items[0].JString? && j.items[1].JString? && j.items[2].JString? then
      var s := Slot(j.items[0].text, j.items[1].text, j.items[2].text);
      if ValidSlot(s) then Some(s) else None
    else None
  }

  function SlotsOf(items: seq<Json>, n: nat): seq<Slot>
    requires n <= |items|
  {
    if n == 0 then []
    else SlotsOf(items, n - 1) + (if SlotOf(items[n - 1]).Some? then [SlotOf(items[n - 1]).value] else [])
  }

  /** What `decode_item_slots` finds in a header. */
  function Decoded(header: Text): seq<Slot> {
    if header == [] || |header| > MAX_HEADER_LENGTH then []
    else match Loads(header)
      case None => []
      case Some(raw) => if raw.JArray? then SlotsOf(raw.items, AtMost(|raw.items|, MAX_SLOTS)) else []
  }

  /** What a call of `decode_item_slots` comes to. */
  datatype Decoding = Slots(slots: seq<Slot>) | RecursionError

  predicate Readable(header: Text) {
    header != [] && |header| <= MAX_HEADER_LENGTH
  }

  /** `decode_item_slots` with `limit` levels of recursion left. It is said never to raise, but
      it catches ValueError only: it raises exactly on a header short enough to be read that
      nests deeper than the limit. Every slot it returns is valid whatever it was given. */
  method DecodeItemSlots(header: Option<Text>, limit: nat) returns (r: Decoding)
    ensures r == RecursionError <==> header.Some? && Readable(header.value) && Nesting(header.value) > limit
    ensures header.None? || header.value == [] || |header.value| > 8192 ==> r == Slots([])
    ensures r.Slots? ==> r.slots == if header.Some? then Decoded(header.value) else []
    ensures r.Slots? ==> |r.slots| <= 64 && forall s :: s in r.slots ==>
              0 < |s.itemType| <= 200 && 0 < |s.name| <= 200 && 0 < |s.itemKey| <= 200
  {
    var slots: seq<Slot> := [];
    if header.None? || header.value == [] || |header.value| > MAX_HEADER_LENGTH {
      return Slots(slots);
    }
    LoadsRaisesIff(header.value, limit);
    hide Loads, LoadsWithin, Nesting;
    var raw := LoadsWithin(header.value, limit);
    if raw.TooDeep? {
      return RecursionError;
    }
    if raw.Malformed? || !raw.value.JArray? {
      return Slots(slots);
    }
    var items := raw.value.items;
    for i := 0 to AtMost(|items|, MAX_SLOTS)
      invariant slots == SlotsOf(items, i) && |slots| <= i
      invariant forall s :: s in slots ==> ValidSlot(s)
    {
      var slot := SlotOf(items[i]);
      if slot.Some? {
        slots := slots + [slot.value];
      }
    }
    return Slots(slots);
  }

  /** The same as a function. */
  function DecodedWithin(header: Text, limit: nat): Decoding {
    if Readable(header) && Nesting(header) > limit then RecursionError else Slots(Decoded(header))
  }

  function Brackets(n: nat): Text {
    seq(n, _ => OPEN)
  }

  /** There is such a header exactly for the limits below 8192: that many opening brackets. */
  lemma {:induction false} DecodingRaises(limit: nat)
    ensures limit < MAX_HEADER_LENGTH <==> exists header :: DecodedWithin(header, limit) == RecursionError
    ensures forall n: nat :: limit < n <= MAX_HEADER_LENGTH ==>
              DecodedWithin(Brackets(n), limit) == RecursionError
  {
    forall n: nat | limit < n <= MAX_HEADER_LENGTH
      ensures DecodedWithin(Brackets(n), limit) == RecursionError
    {
      var brackets := Brackets(n);
      assert SkipSpace(brackets, 0) == 0;
      BracketsNest(brackets, 0);
    }
    if limit < MAX_HEADER_LENGTH {
      assert DecodedWithin(Brackets(MAX_HEADER_LENGTH), limit) == RecursionError;
    }
    forall header | Readable(header)
      ensures Nesting(header) <= MAX_HEADER_LENGTH
    {
      DepthBound(header, SkipSpace(header, 0));
    }
  }

  function JoinedSlot(s: Slot): Slot {
    Slot(Joined(s.itemType, 0), Joined(s.name, 0), Joined(s.itemKey, 0))
  }

  lemma {:induction false} RowsAre(slots: seq<Slot>, n: nat)
    requires n <= |slots|
    ensures |Rows(slots, n)| == n && forall k :: 0 <= k < n ==> Rows(slots, n)[k] == Row(slots[k])
  {
    if n == 0 {
    } else {
      RowsAre(slots, n - 1);
    }
  }

  lemma {:induction false} JoinedItemsAre(items: seq<Json>, n: nat)
    requires n <= |items|
    ensures |JoinedItems(items, n)| == |items| - n
    ensures forall k :: n <= k < |items| ==> JoinedItems(items, n)[k - n] == JoinedJson(items[k])
    decreases |items| - n
  {
    if n == |items| {
    } else {
      JoinedItemsAre(items, n + 1);
      hide JoinedJson;
      var joined, rest := JoinedItems(items, n), JoinedItems(items, n + 1);
      assert joined == [JoinedJson(items[n])] + rest;
      hide JoinedItems;
      forall k | n <= k < |items|
        ensures joined[k - n] == JoinedJson(items[k])
      {
        if k > n {
          assert joined[k - n] == rest[k - (n + 1)];
        }
      }
    }
  }

  lemma {:induction false} JoinedRow(s: Slot)
    ensures JoinedJson(Row(s)) == Row(JoinedSlot(s))
  {
    var items := [JString(s.itemType), JString(s.name), JString(s.itemKey)];
    JoinedItemsAre(items, 0);
    assert JoinedItems(items, 0) == [JoinedJson(items[0]), JoinedJson(items[1]), JoinedJson(items[2])];
  }

  lemma {:induction false} SlotOfRow(s: Slot)
    ensures SlotOf(Row(s)) == if ValidSlot(s) then Some(s) else None
  {
  }

  lemma {:induction false} RowsPlain(slots: seq<Slot>, n: nat)
    requires n <= |slots|
    ensures Plain(JArray(Rows(slots, n)))
  {
    RowsAre(slots, n);
    var rows := Rows(slots, n);
    forall k | 0 <= k < n
      ensures Plain(rows[k])
    {
      var fields := rows[k].items;
      assert Plain(fields[0]) && Plain(fields[1]) && Plain(fields[2]);
    }
  }

  /** A whole written header parses. */
  lemma {:induction false} LoadsBack(j: Json)
    requires Plain(j)
    ensures Dumps(j) != [] && Loads(Dumps(j)) == Some(JoinedJson(j))
  {
    var t := Dumps(j);
    assert TextAt(t, 0, Dumps(j));
    Starts(t, 0, j);
    NoSpace(t, 0);
    ValueBack(t, 0, j);
    hide Dumps, Value;
  }

  /** The slots of the first `n` rows that survive: those valid once their pairs are joined. */
  function Surviving(slots: seq<Slot>, n: nat): seq<Slot>
    requires n <= |slots|
  {
    if n == 0 then []
    else Surviving(slots, n - 1) + (if ValidSlot(JoinedSlot(slots[n - 1])) then [JoinedSlot(slots[n - 1])] else [])
  }

  lemma {:induction false} SurvivingRows(slots: seq<Slot>, items: seq<Json>, n: nat)
    requires n <= |slots| && n <= |items|
    requires forall k :: 0 <= k < n ==> items[k] == Row(JoinedSlot(slots[k]))
    ensures SlotsOf(items, n) == Surviving(slots, n)
  {
    if n == 0 {
    } else {
      SurvivingRows(slots, items, n - 1);
      SlotOfRow(JoinedSlot(slots[n - 1]));
      hide SlotOf, ValidSlot, JoinedSlot;
    }
  }

  /** What a written header says: the first 64 slots in order, each as its type, name and key. */
  lemma {:induction false} HeaderSays(slots: seq<Slot>) returns (items: seq<Json>)
    ensures EncodeItemSlots(slots) != [] && Loads(EncodeItemSlots(slots)) == Some(JArray(items))
    ensures |items| == if |slots| <= 64 then |slots| else 64
    ensures forall k :: 0 <= k < |items| ==>
              items[k] == JArray([JString(Joined(slots[k].itemType, 0)), JString(Joined(slots[k].name, 0)),
                                  JString(Joined(slots[k].itemKey, 0))])
  {
    var n := AtMost(|slots|, MAX_SLOTS);
    var rows := Rows(slots, n);
    RowsAre(slots, n);
    RowsPlain(slots, n);
    LoadsBack(JArray(rows));
    JoinedItemsAre(rows, 0);
    items := JoinedItems(rows, 0);
    forall k | 0 <= k < n
      ensures items[k] == Row(JoinedSlot(slots[k]))
    {
      JoinedRow(slots[k]);
    }
    hide Rows, Dumps, Loads, Joined, JoinedItems;
  }

  /** Decoding what was encoded, for all slots: the first 64, their surrogate pairs joined,
      those with a field empty or too long left out; nothing if the header is too long. */
  lemma {:induction false} DecodeOfEncode(slots: seq<Slot>)
    ensures Decoded(EncodeItemSlots(slots)) ==
            if |EncodeItemSlots(slots)| > MAX_HEADER_LENGTH then [] else Surviving(slots, AtMost(|slots|, MAX_SLOTS))
  {
    var back := HeaderSays(slots);
    hide Loads, Surviving, SlotsOf, EncodeItemSlots;
    SurvivingRows(slots, back, AtMost(|slots|, MAX_SLOTS));
  }

  // ----- When the round trip is exact -------------------------------------------------

  ghost predicate NoPair(f: Text) {
    forall n :: 0 <= n < |f| ==> !PairAt(f, n)
  }

  ghost predicate NoPairFrom(f: Text, n: nat) {
    forall k :: n <= k < |f| ==> !PairAt(f, k)
  }

  lemma {:induction false} NoPairNext(f: Text, n: nat)
    requires n < |f|
    ensures NoPairFrom(f, n) <==> !PairAt(f, n) && NoPairFrom(f, n + 1)
  {
  }

  /** Joining shortens a text exactly if there is something to join. */
  lemma {:induction false} JoinedSame(f: Text, n: nat)
    requires n <= |f|
    ensures |Joined(f, n)| <= |f| - n && (|Joined(f, n)| == |f| - n <==> NoPairFrom(f, n))
    ensures NoPairFrom(f, n) ==> Joined(f, n) == f[n..]
    decreases |f| - n
  {
    if n == |f| {
    } else {
      NoPairNext(f, n);
      hide NoPairFrom;
      JoinedSame(f, if PairAt(f, n) then n + 2 else n + 1);
      assert f[n..] == [f[n]] + f[n + 1..];
    }
  }

  lemma {:induction false} JoinedIffNoPair(f: Text)
    ensures Joined(f, 0) == f <==> NoPair(f)
  {
    JoinedSame(f, 0);
    assert f[0..] == f;
  }

  ghost predicate Faithful(s: Slot) {
    ValidSlot(s) && NoPair(s.itemType) && NoPair(s.name) && NoPair(s.itemKey)
  }

  lemma {:induction false} SurvivesAsItself(s: Slot)
    ensures ValidSlot(JoinedSlot(s)) && JoinedSlot(s) == s <==> Faithful(s)
  {
    JoinedIffNoPair(s.itemType);
    JoinedIffNoPair(s.name);
    JoinedIffNoPair(s.itemKey);
    hide Joined, NoPair;
  }

  lemma {:induction false} SurvivingSame(slots: seq<Slot>, n: nat)
    requires n <= |slots|
    ensures |Surviving(slots, n)| <= n
    ensures Surviving(slots, n) == slots[..n] <==> forall k :: 0 <= k < n ==> Faithful(slots[k])
  {
    if n == 0 {
    } else {
      SurvivingSame(slots, n - 1);
      SurvivesAsItself(slots[n - 1]);
      hide Faithful, JoinedSlot, ValidSlot;
      assert slots[..n] == slots[..n - 1] + [slots[n - 1]];
      var before := Surviving(slots, n - 1);
      if Surviving(slots, n) == slots[..n] {
        assert |Surviving(slots, n)| == n;
        assert Surviving(slots, n)[..n - 1] == slots[..n][..n - 1];
        assert before == slots[..n - 1];
      }
    }
  }

  /** An encoded header nests two deep, an empty one once. */
  lemma {:induction false} EncodedNesting(slots: seq<Slot>)
    ensures Nesting(EncodeItemSlots(slots)) == if slots == [] then 1 else 2
  {
    var n := AtMost(|slots|, MAX_SLOTS);
    var rows := Rows(slots, n);
    var t := EncodeItemSlots(slots);
    RowsAre(slots, n);
    RowsPlain(slots, n);
    assert TextAt(t, 0, Dumps(JArray(rows)));
    hide EncodeItemSlots, Dumps, Rows, Plain;
    Starts(t, 0, JArray(rows));
    NoSpace(t, 0);
    DepthBack(t, 0, JArray(rows));
    if n > 0 {
      RowsDepth(rows, slots, n, 0);
    }
    hide ValueDepth, SkipSpace, TextAt;
  }

  lemma {:induction false} RowsDepth(rows: seq<Json>, slots: seq<Slot>, n: nat, k: nat)
    requires k < n == |rows| <= |slots| && forall m :: 0 <= m < n ==> rows[m] == Row(slots[m])
    ensures DepthFrom(rows, k) == 1
    decreases n - k
  {
    RowDepth(slots[k]);
    hide Row, Depth;
    if k + 1 < n {
      RowsDepth(rows, slots, n, k + 1);
    }
  }

  lemma {:induction false} StringsAreFlat(items: seq<Json>, n: nat)
    requires n < |items| && forall k :: 0 <= k < |items| ==> items[k].JString?
    ensures DepthFrom(items, n) == 0
    decreases |items| - n
  {
    assert Depth(items[n]) == 0;
    if n + 1 == |items| {
    } else {
      StringsAreFlat(items, n + 1);
    }
  }

  lemma {:induction false} RowDepth(s: Slot)
    ensures Depth(Row(s)) == 1
  {
    StringsAreFlat(Row(s).items, 0);
    hide DepthFrom;
  }

  /** Decoding what was encoded never raises with two levels of recursion left, and with fewer
      exactly if there is something to read that needs them. */
  lemma {:induction false} EncodedIsRead(slots: seq<Slot>, limit: nat)
    ensures DecodedWithin(EncodeItemSlots(slots), limit) == RecursionError <==>
            |EncodeItemSlots(slots)| <= MAX_HEADER_LENGTH && limit < if slots == [] then 1 else 2
  {
    EncodedNesting(slots);
    EncodedNotEmpty(slots);
    hide EncodeItemSlots, Nesting, Decoded;
  }

  lemma {:induction false} EncodedNotEmpty(slots: seq<Slot>)
    ensures EncodeItemSlots(slots) != [] && (slots == [] ==> |EncodeItemSlots(slots)| == 2)
  {
  }

  /** The round trip restores the slots exactly when there are at most 64 of them, the header
      fits, every field is non-empty, at most 200 long and free of surrogate pairs, and the
      reader has the one or two levels of recursion it needs. */
  lemma {:induction false} RoundTripIff(slots: seq<Slot>, limit: nat)
    ensures Decoded(EncodeItemSlots(slots)) == slots <==> Restorable(slots)
    ensures DecodedWithin(EncodeItemSlots(slots), limit) == Slots(slots) <==>
            Restorable(slots) && limit >= if slots == [] then 1 else 2
  {
    DecodeOfEncode(slots);
    SurvivingSame(slots, AtMost(|slots|, MAX_SLOTS));
    EncodedIsRead(slots, limit);
    EncodedNotEmpty(slots);
    assert slots[..|slots|] == slots;
    hide Decoded, EncodeItemSlots, Faithful, Surviving, Nesting;
  }

  ghost predicate Restorable(slots: seq<Slot>) {
    && |slots| <= 64 && |EncodeItemSlots(slots)| <= 8192
    && forall k :: 0 <= k < |slots| ==> Faithful(slots[k])
  }
}
