/** What a header says. Every JSON text (RFC 8259, with the words Python adds), whatever its white
    space and escapes, is read as what it says, and nothing else is read. */
module SlotLayout {
  import opened Options
  import opened SlotCodec

  /** One character of a string and the text it is spelled with. */
  datatype Piece = Piece(code: Code, text: Text)

  /** A JSON text, down to the last blank. */
  datatype Layout =
    | Str(pieces: seq<Piece>)
    | Word(word: string)
    | Number(minus: bool, whole: Text, frac: Text, exp: Text)
    | Arr(inside: Text, items: seq<Item>)
    | Obj(inside: Text, members: seq<Member>)

  /** A value between blanks. */
  datatype Item = Item(before: Text, value: Layout, after: Text)

  datatype Member = Member(before: Text, name: seq<Piece>, gap: Text, item: Item)

  const BRACE: Code := 123
  const UNBRACE: Code := 125
  const COLON: Code := 58
  const MINUS: Code := 45

  // ----- The grammar ------------------------------------------------------------------

  predicate Blank(s: Text) {
    forall k :: 0 <= k < |s| ==> s[k] == 32 || s[k] == 9 || s[k] == 10 || s[k] == 13
  }

  predicate IsHex(h: int, d: int) {
    if d < 10 then h == 48 + d else h == 87 + d || h == 55 + d
  }

  /** Backslash, `u` and the four digits of `c`, in either case. */
  predicate HexSpelling(p: Text, c: int) {
    && 0 <= c < 0x10000
    && |p| == 6 && p[0] == BACKSLASH && p[1] == LETTER_U
    && IsHex(p[2], c / 4096) && IsHex(p[3], c / 256 % 16) && IsHex(p[4], c / 16 % 16) && IsHex(p[5], c % 16)
  }

  /** Two escapes for a character beyond the first 65536. */
  predicate PairSpelling(p: Text, c: int) {
    && 0x10000 <= c < 0x110000 && |p| == 12
    && HexSpelling(p[..6], 0xD800 + (c - 0x10000) / 1024) && HexSpelling(p[6..], 0xDC00 + (c - 0x10000) % 1024)
  }

  predicate ShortSpelling(p: Text, c: int) {
    && |p| == 2 && p[0] == BACKSLASH
    && (p[1] as int, c) in {(34, 34), (92, 92), (47, 47), (98, 8), (102, 12), (110, 10), (114, 13), (116, 9)}
  }

  /** The ways to write a character inside a string: as it is, with a short escape, with one
      hexadecimal escape or with two. */
  predicate Spelled(piece: Piece) {
    var p, c := piece.text, piece.code;
    || (p == [c] && c >= 32 && c != 34 && c != 92)
    || ShortSpelling(p, c) || HexSpelling(p, c) || PairSpelling(p, c)
  }

  /** Two escaped surrogates that would be read as one character. */
  predicate Joins(a: Piece, b: Piece) {
    High(a.code) && |a.text| == 6 && Low(b.code) && |b.text| == 6
  }

  ghost predicate StringOk(pieces: seq<Piece>) {
    && (forall k :: 0 <= k < |pieces| ==> Spelled(pieces[k]))
    && (forall j, k :: 0 <= j < k < |pieces| && k == j + 1 ==> !Joins(pieces[j], pieces[k]))
  }

  predicate Digits(s: Text) {
    forall k :: 0 <= k < |s| ==> 48 <= s[k] <= 57
  }

  predicate FracOk(s: Text) {
    s == [] || (|s| > 1 && s[0] == 46 && Digits(s[1..]))
  }

  predicate ExpOk(s: Text) {
    || s == []
    || (|s| > 1 && (s[0] == 101 || s[0] == 69)
        && if s[1] == 43 || s[1] == 45 then |s| > 2 && Digits(s[2..]) else Digits(s[1..]))
  }

  /** No leading zeros, and no integer that the interpreter refuses to convert. */
  predicate NumberOk(whole: Text, frac: Text, exp: Text) {
    && Digits(whole) && |whole| > 0 && (whole[0] == 48 ==> |whole| == 1)
    && FracOk(frac) && ExpOk(exp) && (frac == [] && exp == [] ==> |whole| <= 4300)
  }

  ghost predicate WellFormed(l: Layout) {
    match l
    case Str(pieces) => StringOk(pieces)
    case Word(word) => word in {"null", "true", "false", "NaN", "Infinity", "-Infinity"}
    case Number(_, whole, frac, exp) => NumberOk(whole, frac, exp)
    case Arr(inside, items) => Blank(inside) && forall k :: 0 <= k < |items| ==> ItemOk(items[k])
    case Obj(inside, members) => Blank(inside) && forall k :: 0 <= k < |members| ==> MemberOk(members[k])
  }

  ghost predicate ItemOk(item: Item) {
    Blank(item.before) && WellFormed(item.value) && Blank(item.after)
  }

  ghost predicate MemberOk(m: Member) {
    Blank(m.before) && StringOk(m.name) && Blank(m.gap) && ItemOk(m.item)
  }

  // ----- What a layout says, and its text ---------------------------------------------

  function Meaning(l: Layout): Json {
    match l
    case Str(pieces) => JString(Codes(pieces))
    case Arr(_, items) => JArray(Meanings(items))
    case _ => JOther
  }

  function Codes(pieces: seq<Piece>): Text {
    if pieces == [] then [] else [pieces[0].code] + Codes(pieces[1..])
  }

  function Meanings(items: seq<Item>): seq<Json> {
    if items == [] then [] else [Meaning(items[0].value)] + Meanings(items[1..])
  }

  function CodesOf(word: string): Text {
    seq(|word|, k requires 0 <= k < |word| => word[k] as int)
  }

  function Sign(minus: bool): Text {
    if minus then [MINUS] else []
  }

  function Print(l: Layout): Text {
    match l
    case Str(pieces) => [QUOTE] + PrintPieces(pieces)
    case Word(word) => CodesOf(word)
    case Number(minus, whole, frac, exp) => Sign(minus) + (whole + (frac + exp))
    case Arr(inside, items) => [OPEN] + if items == [] then inside + [CLOSE] else PrintItems(items)
    case Obj(inside, members) => [BRACE] + if members == [] then inside + [UNBRACE] else PrintMembers(members)
  }

  /** The characters, with the closing quote. */
  function PrintPieces(pieces: seq<Piece>): Text {
    if pieces == [] then [QUOTE] else pieces[0].text + PrintPieces(pieces[1..])
  }

  /** A value between its blanks, and what follows it. */
  function PrintItem(item: Item, rest: Text): Text {
    item.before + (Print(item.value) + (item.after + rest))
  }

  /** The items, with the closing bracket. */
  function PrintItems(items: seq<Item>): Text
    requires items != []
  {
    PrintItem(items[0], if |items| == 1 then [CLOSE] else [COMMA] + PrintItems(items[1..]))
  }

  /** The members, with the closing brace. */
  function PrintMembers(members: seq<Member>): Text
    requires members != []
  {
    var m := members[0];
    m.before + ([QUOTE] + (PrintPieces(m.name) + (m.gap + ([COLON] +
    PrintItem(m.item, if |members| == 1 then [UNBRACE] else [COMMA] + PrintMembers(members[1..]))))))
  }

  // ----- Pieces of text ---------------------------------------------------------------

  lemma {:induction false} AtJoin(t: Text, i: nat, a: Text, b: Text)
    requires TextAt(t, i, a) && TextAt(t, i + |a|, b)
    ensures TextAt(t, i, a + b)
  {
    var s := a + b;
    forall k | 0 <= k < |s|
      ensures t[i + k] == s[k]
    {
      if k >= |a| {
        assert t[i + |a| + (k - |a|)] == b[k - |a|];
      }
    }
  }

  lemma {:induction false} AtSlice(t: Text, i: nat, j: nat)
    requires i <= j <= |t|
    ensures |t[i..j]| == j - i && TextAt(t, i, t[i..j])
  {
  }

  lemma {:induction false} AtOne(t: Text, i: nat, c: Code)
    requires i < |t| && t[i] == c
    ensures TextAt(t, i, [c])
  {
  }

  /** Exactly spaces, tabs, line feeds and carriage returns are skipped, as far as they go. */
  lemma {:induction false} SkipSpaceMeans(t: Text, i: nat)
    requires i <= |t|
    ensures var j := SkipSpace(t, i);
            && i <= j <= |t| && Blank(t[i..j])
            && (j < |t| ==> t[j] != 32 && t[j] != 9 && t[j] != 10 && t[j] != 13)
    decreases |t| - i
  {
    var j := SkipSpace(t, i);
    if j > i {
      SkipSpaceMeans(t, i + 1);
      assert t[i..j] == [t[i]] + t[i + 1..j];
    }
  }

  /** Blank text is skipped up to what follows it. */
  lemma {:induction false} SkipBlank(t: Text, i: nat, blank: Text)
    requires Blank(blank) && TextAt(t, i, blank)
    requires var j := i + |blank|; j < |t| ==> t[j] != 32 && t[j] != 9 && t[j] != 10 && t[j] != 13
    ensures SkipSpace(t, i) == i + |blank|
    decreases |blank|
  {
    if blank != [] {
      assert t[i + 0] == blank[0];
      AtSplit(t, i, [blank[0]], blank[1..]);
      SkipBlank(t, i + 1, blank[1..]);
    }
  }

  // ----- Strings ----------------------------------------------------------------------

  lemma {:induction false} HexIsRead(t: Text, i: nat, p: Text, c: int)
    requires HexSpelling(p, c) && TextAt(t, i, p)
    ensures i + 6 <= |t| && t[i] == BACKSLASH && t[i + 1] == LETTER_U && Hex4(t, i + 2) == Some(c)
  {
    assert t[i + 0] == p[0] && t[i + 1] == p[1];
    assert t[i + 2] == p[2] && t[i + 3] == p[3] && t[i + 4] == p[4] && t[i + 5] == p[5];
    Digits16(c);
  }

  lemma {:induction false} HexParts(a: int, b: int, c: int, d: int)
    requires 0 <= a < 16 && 0 <= b < 16 && 0 <= c < 16 && 0 <= d < 16
    ensures var n := 4096 * a + 256 * b + 16 * c + d;
            n / 4096 == a && n / 256 % 16 == b && n / 16 % 16 == c && n % 16 == d
  {
    var n := 4096 * a + 256 * b + 16 * c + d;
    var x, y := 256 * a + 16 * b + c, 16 * a + b;
    By16(x, d);
    By16(y, c);
    By16(a, b);
    assert n == 16 * x + d && n == 256 * y + (16 * c + d) && n == 4096 * a + (256 * b + 16 * c + d);
    By256(y, 16 * c + d);
    By4096(a, 256 * b + 16 * c + d);
  }

  lemma {:induction false} By16(q: int, r: int)
    requires 0 <= r < 16
    ensures (16 * q + r) / 16 == q && (16 * q + r) % 16 == r
  {
  }

  lemma {:induction false} By256(q: int, r: int)
    requires 0 <= r < 256
    ensures (256 * q + r) / 256 == q
  {
  }

  lemma {:induction false} By4096(q: int, r: int)
    requires 0 <= r < 4096
    ensures (4096 * q + r) / 4096 == q
  {
  }

  /** Four digits that are read spell what they are read as. */
  lemma {:induction false} HexOf(t: Text, i: nat)
    requires i + 1 < |t| && t[i] == BACKSLASH && t[i + 1] == LETTER_U && Hex4(t, i + 2).Some?
    ensures i + 6 <= |t| && HexSpelling(t[i..i + 6], Hex4(t, i + 2).value)
  {
    HexParts(HexValue(t[i + 2]).value, HexValue(t[i + 3]).value, HexValue(t[i + 4]).value, HexValue(t[i + 5]).value);
  }

  /** The text at `j` is no escaped low surrogate, and no broken escape. */
  predicate NotLow(t: Text, j: nat) {
    j + 1 < |t| && t[j] == BACKSLASH && t[j + 1] == LETTER_U ==> Hex4(t, j + 2).Some? && !Low(Hex4(t, j + 2).value)
  }

  lemma {:induction false} PairIsRead(t: Text, i: nat, p: Text, c: Code)
    requires PairSpelling(p, c) && TextAt(t, i, p)
    ensures i < |t| && t[i] != QUOTE && ScanCode(t, i) == Some(Parsed(c, i + 12)) && NotLow(t, i)
  {
    assert p == p[..6] + p[6..];
    AtSplit(t, i, p[..6], p[6..]);
    HexIsRead(t, i, p[..6], 0xD800 + (c - 0x10000) / 1024);
    HexIsRead(t, i + 6, p[6..], 0xDC00 + (c - 0x10000) % 1024);
    JoinBack(c);
    hide Hex4, HexSpelling, TextAt;
  }

  lemma {:induction false} PieceIsRead(t: Text, i: nat, piece: Piece)
    requires Spelled(piece) && TextAt(t, i, piece.text)
    requires High(piece.code) && |piece.text| == 6 ==> NotLow(t, i + 6)
    ensures i < |t| && t[i] != QUOTE && ScanCode(t, i) == Some(Parsed(piece.code, i + |piece.text|))
    ensures NotLow(t, i) <==> !(Low(piece.code) && |piece.text| == 6)
  {
    var p, c := piece.text, piece.code;
    if |p| == 6 {
      HexIsRead(t, i, p, c);
      hide Hex4, HexSpelling;
    } else if |p| == 12 {
      PairIsRead(t, i, p, c);
    } else {
      assert t[i + 0] == p[0] && (|p| == 2 ==> t[i + 1] == p[1]);
      hide Hex4, HexSpelling;
    }
  }

  /** What is read as one character is one of its spellings. */
  lemma {:induction false} PieceOf(t: Text, i: nat) returns (piece: Piece)
    requires i < |t| && t[i] != QUOTE && ScanCode(t, i).Some?
    ensures Spelled(piece) && TextAt(t, i, piece.text)
    ensures ScanCode(t, i) == Some(Parsed(piece.code, i + |piece.text|))
    ensures High(piece.code) && |piece.text| == 6 ==> NotLow(t, i + 6)
  {
    var r := ScanCode(t, i).value;
    piece := Piece(r.value, t[i..r.next]);
    if t[i] != BACKSLASH {
      assert piece.text == [t[i]];
    } else if Unescape(t[i + 1]) != 0 {
      assert ShortSpelling(piece.text, piece.code);
    } else {
      HexOf(t, i);
      if r.next == i + 12 {
        HexOf(t, i + 6);
        PairOf(t, i, Hex4(t, i + 2).value, Hex4(t, i + 8).value);
      }
    }
    hide Hex4, HexSpelling, PairSpelling;
  }

  lemma {:induction false} PairOf(t: Text, i: nat, high: int, low: int)
    requires i + 12 <= |t| && High(high) && Low(low)
    requires HexSpelling(t[i..i + 6], high) && HexSpelling(t[i + 6..i + 12], low)
    ensures PairSpelling(t[i..i + 12], 0x10000 + (high - 0xD800) * 1024 + (low - 0xDC00))
  {
    var p := t[i..i + 12];
    assert p[..6] == t[i..i + 6] && p[6..] == t[i + 6..i + 12];
    hide HexSpelling;
  }

  lemma {:induction false} StringTail(pieces: seq<Piece>)
    requires StringOk(pieces) && pieces != []
    ensures Spelled(pieces[0]) && StringOk(pieces[1..])
    ensures |pieces| > 1 ==> !Joins(pieces[0], pieces[1])
  {
    hide Spelled, Joins;
  }

  lemma {:induction false} StringCons(piece: Piece, rest: seq<Piece>)
    requires Spelled(piece) && StringOk(rest) && (rest != [] ==> !Joins(piece, rest[0]))
    ensures StringOk([piece] + rest)
    ensures Codes([piece] + rest) == [piece.code] + Codes(rest)
    ensures PrintPieces([piece] + rest) == piece.text + PrintPieces(rest)
  {
    var all := [piece] + rest;
    assert all[1..] == rest;
    hide Spelled, Joins;
    assert forall k :: 0 < k < |all| ==> all[k] == rest[k - 1];
  }

  /** Every spelling of a string is read as that string. */
  lemma {:induction false} StringIsRead(t: Text, i: nat, pieces: seq<Piece>)
    requires StringOk(pieces) && TextAt(t, i, PrintPieces(pieces))
    ensures ScanString(t, i) == Some(Parsed(Codes(pieces), i + |PrintPieces(pieces)|))
    ensures NotLow(t, i) <==> !(pieces != [] && Low(pieces[0].code) && |pieces[0].text| == 6)
    decreases |pieces|
  {
    hide *;
    if pieces == [] {
      NoPieces(t, i);
    } else {
      StringTail(pieces);
      StringParts(pieces);
      var next := i + |pieces[0].text|;
      AtSplit(t, i, pieces[0].text, PrintPieces(pieces[1..]));
      StringIsRead(t, next, pieces[1..]);
      Unjoined(pieces[0], pieces[1..]);
      PieceIsRead(t, i, pieces[0]);
      ScanNext(t, i);
    }
  }

  lemma {:induction false} NoPieces(t: Text, i: nat)
    requires TextAt(t, i, PrintPieces([]))
    ensures ScanString(t, i) == Some(Parsed(Codes([]), i + |PrintPieces([])|)) && NotLow(t, i)
  {
    assert t[i + 0] == [QUOTE][0];
  }

  lemma {:induction false} StringParts(pieces: seq<Piece>)
    requires pieces != []
    ensures PrintPieces(pieces) == pieces[0].text + PrintPieces(pieces[1..])
    ensures Codes(pieces) == [pieces[0].code] + Codes(pieces[1..])
  {
  }

  lemma {:induction false} Unjoined(piece: Piece, rest: seq<Piece>)
    ensures rest != [] && !Joins(piece, rest[0]) && High(piece.code) && |piece.text| == 6 ==>
              !(Low(rest[0].code) && |rest[0].text| == 6)
  {
  }

  /** What is read as a string is one of its spellings. */
  lemma {:induction false} StringOf(t: Text, i: nat) returns (pieces: seq<Piece>)
    requires ScanString(t, i).Some?
    ensures StringOk(pieces) && TextAt(t, i, PrintPieces(pieces))
    ensures ScanString(t, i) == Some(Parsed(Codes(pieces), i + |PrintPieces(pieces)|))
    decreases |t| - i
  {
    hide Spelled, ScanCode, NotLow;
    if t[i] == QUOTE {
      pieces := [];
    } else {
      var piece := PieceOf(t, i);
      var next := i + |piece.text|;
      var rest := StringOf(t, next);
      StringIsRead(t, next, rest);
      AtJoin(t, i, piece.text, PrintPieces(rest));
      StringCons(piece, rest);
      pieces := [piece] + rest;
      hide TextAt, StringOk;
      ScanNext(t, i);
    }
  }

  // ----- Numbers and words ------------------------------------------------------------

  /** The text at `j` does not go on with a number. */
  predicate Ends(t: Text, j: nat) {
    !Digit(t, j) && (j < |t| ==> t[j] != 46 && t[j] != 101 && t[j] != 69)
  }

  lemma {:induction false} DigitsSkipped(t: Text, i: nat, ds: Text)
    requires TextAt(t, i, ds) && Digits(ds) && !Digit(t, i + |ds|)
    ensures SkipDigits(t, i) == i + |ds|
    decreases |ds|
  {
    if ds != [] {
      assert t[i + 0] == ds[0];
      AtSplit(t, i, [ds[0]], ds[1..]);
      DigitsSkipped(t, i + 1, ds[1..]);
    }
  }

  lemma {:induction false} SkippedDigits(t: Text, i: nat)
    requires i <= |t|
    ensures i <= SkipDigits(t, i) <= |t| && Digits(t[i..SkipDigits(t, i)]) && !Digit(t, SkipDigits(t, i))
    decreases |t| - i
  {
    var j := SkipDigits(t, i);
    if j > i {
      SkippedDigits(t, i + 1);
      assert t[i..j] == [t[i]] + t[i + 1..j];
    }
  }

  /** Where the number at `i` ends, part by part. */
  function WholeEnd(t: Text, a: nat): nat {
    if a < |t| && t[a] == 48 then a + 1 else SkipDigits(t, a)
  }

  function FracEnd(t: Text, b: nat): nat {
    if b < |t| && t[b] == 46 && Digit(t, b + 1) then SkipDigits(t, b + 1) else b
  }

  function ExpEnd(t: Text, c: nat): nat {
    var sign := if c + 1 < |t| && (t[c + 1] == 43 || t[c + 1] == 45) then c + 2 else c + 1;
    if c < |t| && (t[c] == 101 || t[c] == 69) && Digit(t, sign) then SkipDigits(t, sign) else c
  }

  lemma {:induction false} NumberEnd(t: Text, i: nat)
    requires i <= |t|
    ensures var a := if i < |t| && t[i] == 45 then i + 1 else i;
            var b := WholeEnd(t, a);
            var c := FracEnd(t, b);
            var end := ExpEnd(t, c);
            SkipNumber(t, i) == if !Digit(t, a) || (end == b && b - a > 4300) then i else end
  {
    hide SkipDigits;
  }

  lemma {:induction false} WholeIsRead(t: Text, a: nat, whole: Text)
    requires TextAt(t, a, whole) && Digits(whole) && |whole| > 0 && (whole[0] == 48 ==> |whole| == 1)
    requires !Digit(t, a + |whole|)
    ensures Digit(t, a) && WholeEnd(t, a) == a + |whole|
  {
    assert t[a + 0] == whole[0];
    DigitsSkipped(t, a, whole);
    hide SkipDigits;
  }

  lemma {:induction false} FracIsRead(t: Text, b: nat, frac: Text)
    requires TextAt(t, b, frac) && FracOk(frac) && !Digit(t, b + |frac|)
    requires frac == [] ==> b < |t| ==> t[b] != 46
    ensures FracEnd(t, b) == b + |frac|
  {
    if frac != [] {
      assert t[b + 0] == frac[0] && t[b + 1] == frac[1] && frac[1..][0] == frac[1];
      AtSplit(t, b, [frac[0]], frac[1..]);
      DigitsSkipped(t, b + 1, frac[1..]);
    }
    hide SkipDigits;
  }

  lemma {:induction false} ExpIsRead(t: Text, c: nat, exp: Text)
    requires TextAt(t, c, exp) && ExpOk(exp) && Ends(t, c + |exp|)
    ensures ExpEnd(t, c) == c + |exp|
  {
    if exp != [] {
      assert t[c + 0] == exp[0] && t[c + 1] == exp[1];
      var n := if exp[1] == 43 || exp[1] == 45 then 2 else 1;
      assert exp == exp[..n] + exp[n..];
      AtSplit(t, c, exp[..n], exp[n..]);
      assert t[c + n] == exp[n] && exp[n..][0] == exp[n];
      DigitsSkipped(t, c + n, exp[n..]);
    }
    hide SkipDigits;
  }

  lemma {:induction false} SignAt(t: Text, i: nat, minus: bool, whole: Text, rest: Text)
    requires TextAt(t, i, Sign(minus) + (whole + rest)) && Digits(whole) && |whole| > 0
    ensures var a := if i < |t| && t[i] == 45 then i + 1 else i;
            a == i + |Sign(minus)| && TextAt(t, a, whole) && TextAt(t, a + |whole|, rest)
  {
    AtSplit(t, i, Sign(minus), whole + rest);
    AtSplit(t, i + |Sign(minus)|, whole, rest);
    assert t[i + |Sign(minus)| + 0] == whole[0];
    assert minus ==> t[i + 0] == Sign(minus)[0];
  }

  /** What follows a part of a number does not belong to the part. */
  lemma {:induction false} PartsEnd(t: Text, b: nat, frac: Text, exp: Text)
    requires TextAt(t, b, frac) && TextAt(t, b + |frac|, exp) && FracOk(frac) && ExpOk(exp)
    requires Ends(t, b + |frac| + |exp|)
    ensures !Digit(t, b) && !Digit(t, b + |frac|) && (frac == [] ==> b < |t| ==> t[b] != 46)
  {
    assert frac != [] ==> t[b + 0] == frac[0];
    assert exp != [] ==> t[b + |frac| + 0] == exp[0];
  }

  lemma {:induction false} NumberIsRead(t: Text, i: nat, minus: bool, whole: Text, frac: Text, exp: Text)
    requires NumberOk(whole, frac, exp)
    requires var p := Sign(minus) + (whole + (frac + exp)); TextAt(t, i, p) && Ends(t, i + |p|)
    ensures SkipNumber(t, i) == i + |Sign(minus) + (whole + (frac + exp))| > i
  {
    hide TextAt, Digits, ExpOk, FracOk, Ends, Digit, WholeEnd, FracEnd, ExpEnd, SkipNumber;
    var a := i + |Sign(minus)|;
    var b := a + |whole|;
    SignAt(t, i, minus, whole, frac + exp);
    AtSplit(t, b, frac, exp);
    PartsEnd(t, b, frac, exp);
    WholeIsRead(t, a, whole);
    FracIsRead(t, b, frac);
    ExpIsRead(t, b + |frac|, exp);
    assert i <= |t| by {
      hide *;
      StartsInside(t, i, Sign(minus) + (whole + (frac + exp)));
    }
    NumberEnd(t, i);
  }

  lemma {:induction false} StartsInside(t: Text, i: nat, p: Text)
    requires TextAt(t, i, p)
    ensures i + |p| <= |t|
  {
  }

  lemma {:induction false} FracOf(t: Text, b: nat) returns (frac: Text)
    requires b <= |t|
    ensures FracOk(frac) && TextAt(t, b, frac) && FracEnd(t, b) == b + |frac|
  {
    var c := FracEnd(t, b);
    frac := if c > b then t[b..c] else [];
    if b < |t| && t[b] == 46 && Digit(t, b + 1) {
      SkippedDigits(t, b + 1);
      assert SkipDigits(t, b + 1) > b + 1;
      assert t[b..c][1..] == t[b + 1..c];
    }
    hide SkipDigits;
  }

  lemma {:induction false} ExpOf(t: Text, c: nat) returns (exp: Text)
    requires c <= |t|
    ensures ExpOk(exp) && TextAt(t, c, exp) && ExpEnd(t, c) == c + |exp|
  {
    var end := ExpEnd(t, c);
    exp := if end > c then t[c..end] else [];
    var sign := if c + 1 < |t| && (t[c + 1] == 43 || t[c + 1] == 45) then c + 2 else c + 1;
    if c < |t| && (t[c] == 101 || t[c] == 69) && Digit(t, sign) {
      SkippedDigits(t, sign);
      assert SkipDigits(t, sign) > sign;
      assert t[c..end][sign - c..] == t[sign..end];
    }
    hide SkipDigits;
  }

  lemma {:induction false} WholeOf(t: Text, a: nat) returns (whole: Text)
    requires Digit(t, a)
    ensures Digits(whole) && |whole| > 0 && (whole[0] == 48 ==> |whole| == 1)
    ensures TextAt(t, a, whole) && WholeEnd(t, a) == a + |whole|
  {
    whole := t[a..WholeEnd(t, a)];
    SkippedDigits(t, a);
    assert SkipDigits(t, a) > a;
    hide SkipDigits;
  }

  lemma {:induction false} NumberOf(t: Text, i: nat) returns (l: Layout)
    requires i <= |t| && SkipNumber(t, i) > i
    ensures l.Number? && WellFormed(l) && TextAt(t, i, Print(l)) && SkipNumber(t, i) == i + |Print(l)|
  {
    hide *;
    NumberEnd(t, i);
    var minus := i < |t| && t[i] == 45;
    var a := if minus then i + 1 else i;
    assert Digit(t, a);
    var whole := WholeOf(t, a);
    StartsInside(t, a, whole);
    var frac := FracOf(t, a + |whole|);
    StartsInside(t, a + |whole|, frac);
    var exp := ExpOf(t, a + |whole| + |frac|);
    l := Number(minus, whole, frac, exp);
    AtJoin(t, a + |whole|, frac, exp);
    AtJoin(t, a, whole, frac + exp);
    SignOf(t, i);
    AtJoin(t, i, Sign(minus), whole + (frac + exp));
    NumberText(minus, whole, frac, exp);
  }

  lemma {:induction false} SignOf(t: Text, i: nat)
    requires i <= |t|
    ensures var minus := i < |t| && t[i] == 45;
            TextAt(t, i, Sign(minus)) && |Sign(minus)| == if minus then 1 else 0
  {
  }

  lemma {:induction false} NumberText(minus: bool, whole: Text, frac: Text, exp: Text)
    ensures Print(Number(minus, whole, frac, exp)) == Sign(minus) + (whole + (frac + exp))
    ensures WellFormed(Number(minus, whole, frac, exp)) <==>
            && Digits(whole) && |whole| > 0 && (whole[0] == 48 ==> |whole| == 1)
            && FracOk(frac) && ExpOk(exp) && (frac == [] && exp == [] ==> |whole| <= 4300)
  {
  }

  lemma {:induction false} WordAt(t: Text, i: nat, word: string)
    ensures TextAt(t, i, CodesOf(word)) <==> Spells(t, i, word)
  {
    if Spells(t, i, word) {
      assert TextAt(t, i, CodesOf(word));
    } else if TextAt(t, i, CodesOf(word)) {
      forall k | 0 <= k < |word|
        ensures t[i + k] == word[k] as int
      {
        assert t[i + k] == CodesOf(word)[k];
      }
    }
  }

  lemma {:induction false} FirstLetter(t: Text, i: nat, word: string)
    requires Spells(t, i, word) && word != ""
    ensures i + |word| <= |t| && t[i] == word[0] as int
  {
    assert t[i + 0] == word[0] as int;
  }

  lemma {:induction false} NoNumber(t: Text, i: nat)
    requires i < |t| && !Digit(t, i) && (t[i] == 45 ==> !Digit(t, i + 1))
    ensures SkipNumber(t, i) == i
  {
    hide SkipDigits;
  }

  lemma {:induction false} WordIsRead(t: Text, i: nat, word: string)
    requires word in {"null", "true", "false", "NaN", "Infinity", "-Infinity"} && Spells(t, i, word)
    ensures i < |t| && Scalar(t, i) == Some(Parsed(JOther, i + |word|))
    ensures t[i] != QUOTE && t[i] != OPEN && t[i] != BRACE
  {
    FirstLetter(t, i, word);
    if word == "-Infinity" {
      assert t[i + 1] == word[1] as int;
    }
    if word in {"NaN", "Infinity", "-Infinity"} {
      NoNumber(t, i);
    }
    OtherWord(t, i, "null");
    OtherWord(t, i, "true");
    OtherWord(t, i, "false");
    OtherWord(t, i, "NaN");
    OtherWord(t, i, "Infinity");
    hide SkipNumber, Spells;
  }

  lemma {:induction false} OtherWord(t: Text, i: nat, word: string)
    requires word != "" && i < |t|
    ensures t[i] != word[0] as int ==> !Spells(t, i, word)
  {
    if Spells(t, i, word) {
      assert t[i + 0] == word[0] as int;
    }
  }

  lemma {:induction false} NumberStarts(t: Text, i: nat)
    requires i <= |t| && SkipNumber(t, i) > i
    ensures i < |t| && (t[i] == 45 || Digit(t, i)) && Scalar(t, i) == Some(Parsed(JOther, SkipNumber(t, i)))
  {
    assert forall other :: Spells(t, i, other) && other != "" ==> t[i + 0] == other[0] as int;
    hide SkipDigits;
  }

  lemma {:induction false} ScalarIsRead(t: Text, i: nat, l: Layout)
    requires (l.Word? || l.Number?) && WellFormed(l) && TextAt(t, i, Print(l)) && Ends(t, i + |Print(l)|)
    ensures i < |t| && Value(t, i) == Some(Parsed(JOther, i + |Print(l)|))
    ensures t[i] != QUOTE && t[i] != OPEN && t[i] != BRACE
  {
    hide Scalar, Spells;
    match l
    case Word(word) =>
      WordAt(t, i, word);
      WordIsRead(t, i, word);
    case Number(minus, whole, frac, exp) =>
      NumberIsRead(t, i, minus, whole, frac, exp);
      StartsInside(t, i, Print(l));
      NumberStarts(t, i);
      hide SkipNumber, TextAt, NumberOk;
  }

  lemma {:induction false} ScalarOf(t: Text, i: nat) returns (l: Layout)
    requires i < |t| && Scalar(t, i).Some?
    ensures (l.Word? || l.Number?) && WellFormed(l) && TextAt(t, i, Print(l))
    ensures Scalar(t, i) == Some(Parsed(JOther, i + |Print(l)|))
  {
    var word :=
      if Spells(t, i, "null") then "null" else if Spells(t, i, "true") then "true"
      else if Spells(t, i, "false") then "false" else if SkipNumber(t, i) > i then ""
      else if Spells(t, i, "NaN") then "NaN" else if Spells(t, i, "Infinity") then "Infinity" else "-Infinity";
    hide Spells, SkipNumber;
    if word == "" {
      l := NumberOf(t, i);
    } else {
      WordAt(t, i, word);
      l := Word(word);
    }
  }

  // ----- Values -----------------------------------------------------------------------

  /** What may stand behind a value and its blank. */
  predicate Closes(c: int) {
    c == 44 || c == 93 || c == 125
  }

  lemma {:induction false} FirstOf(l: Layout)
    requires WellFormed(l)
    ensures Print(l) != []
    ensures var c := Print(l)[0]; c != 32 && c != 9 && c != 10 && c != 13 && !Closes(c)
    ensures l.Str? ==> Print(l)[0] == QUOTE
    ensures l.Arr? ==> Print(l)[0] == OPEN
    ensures l.Obj? ==> Print(l)[0] == BRACE
  {
    hide PrintPieces, PrintItems, PrintMembers, StringOk, FracOk, ExpOk;
    if l.Number? {
      assert Print(l)[0] == if l.minus then MINUS else l.whole[0];
    }
  }

  /** Where a value between blanks starts and ends, and what is behind it. */
  lemma {:induction false} ItemFacts(t: Text, i: nat, item: Item, rest: Text)
    requires ItemOk(item) && TextAt(t, i, PrintItem(item, rest)) && rest != [] && Closes(rest[0])
    ensures var start := i + |item.before|;
            var end := start + |Print(item.value)|;
            var next := end + |item.after|;
            && SkipSpace(t, i) == start < |t| && TextAt(t, start, Print(item.value)) && !Closes(t[start])
            && SkipSpace(t, end) == next < |t| && TextAt(t, next, rest) && t[next] == rest[0] && Ends(t, end)
            && |PrintItem(item, rest)| == next - i + |rest|
  {
    var start := i + |item.before|;
    var end := start + |Print(item.value)|;
    var next := end + |item.after|;
    FirstOf(item.value);
    hide Print, WellFormed;
    AtSplit(t, i, item.before, Print(item.value) + (item.after + rest));
    AtSplit(t, start, Print(item.value), item.after + rest);
    AtSplit(t, end, item.after, rest);
    assert t[start + 0] == Print(item.value)[0] && t[next + 0] == rest[0];
    assert item.after != [] ==> t[end + 0] == item.after[0];
    SkipBlank(t, i, item.before);
    SkipBlank(t, end, item.after);
  }

  lemma {:induction false} ItemAt(t: Text, i: nat, item: Item, rest: Text)
    requires var start := i + |item.before|;
             var end := start + |Print(item.value)|;
             && TextAt(t, i, item.before) && TextAt(t, start, Print(item.value)) && TextAt(t, end, item.after)
             && TextAt(t, end + |item.after|, rest)
    ensures TextAt(t, i, PrintItem(item, rest))
    ensures |PrintItem(item, rest)| == |item.before| + |Print(item.value)| + |item.after| + |rest|
  {
    hide TextAt, Print;
    var start := i + |item.before|;
    var end := start + |Print(item.value)|;
    AtJoin(t, end, item.after, rest);
    AtJoin(t, start, Print(item.value), item.after + rest);
    AtJoin(t, i, item.before, Print(item.value) + (item.after + rest));
  }

  lemma {:induction false} EmptyInside(t: Text, i: nat, inside: Text, close: Code)
    requires Blank(inside) && TextAt(t, i, inside + [close]) && Closes(close)
    ensures SkipSpace(t, i) == i + |inside| < |t| && t[i + |inside|] == close
  {
    AtSplit(t, i, inside, [close]);
    assert t[i + |inside| + 0] == [close][0];
    SkipBlank(t, i, inside);
  }

  lemma {:induction false} StringValue(t: Text, i: nat, text: Text, next: nat)
    requires i < |t| && t[i] == QUOTE && ScanString(t, i + 1) == Some(Parsed(text, next))
    ensures Value(t, i) == Some(Parsed(JString(text), next))
  {
    hide ScanString;
  }

  lemma {:induction false} EmptyValue(t: Text, i: nat, j: nat)
    requires i < |t| && SkipSpace(t, i + 1) == j < |t|
    requires (t[i] == OPEN && t[j] == CLOSE) || (t[i] == BRACE && t[j] == UNBRACE)
    ensures Value(t, i) == Some(Parsed(if t[i] == OPEN then JArray([]) else JOther, j + 1))
  {
    hide SkipSpace;
  }

  lemma {:induction false} ArrayValue(t: Text, i: nat, items: seq<Json>, next: nat)
    requires i < |t| && t[i] == OPEN && (SkipSpace(t, i + 1) < |t| ==> t[SkipSpace(t, i + 1)] != CLOSE)
    requires Items(t, SkipSpace(t, i + 1)) == Some(Parsed(items, next))
    ensures Value(t, i) == Some(Parsed(JArray(items), next))
  {
    hide SkipSpace, Items;
  }

  lemma {:induction false} ObjectValue(t: Text, i: nat, next: nat)
    requires i < |t| && t[i] == BRACE && (SkipSpace(t, i + 1) < |t| ==> t[SkipSpace(t, i + 1)] != UNBRACE)
    requires Members(t, SkipSpace(t, i + 1)) == Some(next)
    ensures Value(t, i) == Some(Parsed(JOther, next))
  {
    hide SkipSpace, Members;
  }

  lemma {:induction false} LastOfItems(t: Text, i: nat, value: Json, next: nat, j: nat)
    requires Value(t, i) == Some(Parsed(value, next)) && SkipSpace(t, next) == j < |t| && t[j] == CLOSE
    ensures Items(t, i) == Some(Parsed([value], j + 1))
  {
    hide Value, SkipSpace;
  }

  lemma {:induction false} MoreItems(t: Text, i: nat, value: Json, next: nat, j: nat, rest: seq<Json>, end: nat)
    requires Value(t, i) == Some(Parsed(value, next)) && SkipSpace(t, next) == j < |t| && t[j] == COMMA
    requires Items(t, SkipSpace(t, j + 1)) == Some(Parsed(rest, end))
    ensures Items(t, i) == Some(Parsed([value] + rest, end))
  {
    hide Value, SkipSpace;
  }

  lemma {:induction false} LastOfMembers(t: Text, i: nat, start: nat, value: Json, next: nat, j: nat)
    requires MemberValue(t, i) == Some(start) && Value(t, start) == Some(Parsed(value, next))
    requires SkipSpace(t, next) == j < |t| && t[j] == UNBRACE
    ensures Members(t, i) == Some(j + 1)
  {
    hide MemberValue, Value, SkipSpace;
  }

  lemma {:induction false} MoreMembers(t: Text, i: nat, start: nat, value: Json, next: nat, j: nat, end: nat)
    requires MemberValue(t, i) == Some(start) && Value(t, start) == Some(Parsed(value, next))
    requires SkipSpace(t, next) == j < |t| && t[j] == COMMA && Members(t, SkipSpace(t, j + 1)) == Some(end)
    ensures Members(t, i) == Some(end)
  {
    hide MemberValue, Value, SkipSpace;
  }

  // ----- Every layout is read ---------------------------------------------------------

  lemma {:induction false} StringText(pieces: seq<Piece>)
    ensures Print(Str(pieces)) == [QUOTE] + PrintPieces(pieces) && Meaning(Str(pieces)) == JString(Codes(pieces))
    ensures WellFormed(Str(pieces)) <==> StringOk(pieces)
  {
    hide PrintPieces, Codes, StringOk;
  }

  lemma {:induction false} ArrayText(inside: Text, items: seq<Item>)
    ensures Print(Arr(inside, items)) == [OPEN] + if items == [] then inside + [CLOSE] else PrintItems(items)
    ensures Meaning(Arr(inside, items)) == JArray(Meanings(items)) && (items == [] ==> Meanings(items) == [])
    ensures WellFormed(Arr(inside, items)) <==> Blank(inside) && forall k :: 0 <= k < |items| ==> ItemOk(items[k])
  {
    hide PrintItems, Blank, ItemOk;
  }

  lemma {:induction false} ObjectText(inside: Text, members: seq<Member>)
    ensures Print(Obj(inside, members)) == [BRACE] + if members == [] then inside + [UNBRACE] else PrintMembers(members)
    ensures Meaning(Obj(inside, members)) == JOther
    ensures WellFormed(Obj(inside, members)) <==>
            Blank(inside) && forall k :: 0 <= k < |members| ==> MemberOk(members[k])
  {
    hide PrintMembers, Blank, MemberOk;
  }

  /** What follows the first item. */
  function ItemsRest(items: seq<Item>): Text
    requires items != []
  {
    if |items| == 1 then [CLOSE] else [COMMA] + PrintItems(items[1..])
  }

  lemma {:induction false} ItemsText(items: seq<Item>)
    requires items != []
    ensures PrintItems(items) == PrintItem(items[0], ItemsRest(items))
    ensures ItemsRest(items) != [] && ItemsRest(items)[0] == if |items| == 1 then CLOSE else COMMA
    ensures |items| == 1 ==> ItemsRest(items) == [CLOSE] && Meanings(items) == [Meaning(items[0].value)]
    ensures |items| > 1 ==> ItemsRest(items) == [COMMA] + PrintItems(items[1..])
    ensures |items| > 1 ==> Meanings(items) == [Meaning(items[0].value)] + Meanings(items[1..])
  {
    hide Print, Meaning;
  }

  function MembersRest(members: seq<Member>): Text
    requires members != []
  {
    if |members| == 1 then [UNBRACE] else [COMMA] + PrintMembers(members[1..])
  }

  function AfterName(members: seq<Member>): Text
    requires members != []
  {
    members[0].gap + ([COLON] + PrintItem(members[0].item, MembersRest(members)))
  }

  lemma {:induction false} MembersText(members: seq<Member>)
    requires members != []
    ensures PrintMembers(members) == members[0].before + ([QUOTE] + (PrintPieces(members[0].name) + AfterName(members)))
    ensures AfterName(members) == members[0].gap + ([COLON] + PrintItem(members[0].item, MembersRest(members)))
    ensures MembersRest(members) != [] && MembersRest(members)[0] == if |members| == 1 then UNBRACE else COMMA
    ensures |members| == 1 ==> MembersRest(members) == [UNBRACE]
    ensures |members| > 1 ==> MembersRest(members) == [COMMA] + PrintMembers(members[1..])
  {
    hide Print, PrintPieces, PrintItem;
  }

  lemma {:induction false} ItemParts(item: Item)
    ensures ItemOk(item) <==> Blank(item.before) && WellFormed(item.value) && Blank(item.after)
  {
    hide Blank, WellFormed;
  }

  lemma {:induction false} MemberParts(m: Member)
    ensures MemberOk(m) <==> Blank(m.before) && StringOk(m.name) && Blank(m.gap) && ItemOk(m.item)
  {
    hide Blank, ItemOk, StringOk;
  }

  lemma {:induction false} Symbols()
    ensures Closes(COMMA) && Closes(CLOSE) && Closes(UNBRACE) && !Closes(QUOTE) && BRACE != OPEN
  {
  }

  /** Every layout of a value is read as what it says. */
  lemma {:induction false} LayoutIsRead(t: Text, i: nat, l: Layout)
    requires WellFormed(l) && TextAt(t, i, Print(l)) && Ends(t, i + |Print(l)|)
    ensures Value(t, i) == Some(Parsed(Meaning(l), i + |Print(l)|))
    decreases l, 1
  {
    if l.Word? || l.Number? {
      ScalarIsRead(t, i, l);
    } else {
      NestedIsRead(t, i, l);
    }
  }

  lemma {:induction false} NestedIsRead(t: Text, i: nat, l: Layout)
    requires WellFormed(l) && TextAt(t, i, Print(l)) && !l.Word? && !l.Number?
    ensures Value(t, i) == Some(Parsed(Meaning(l), i + |Print(l)|))
    decreases l, 0
  {
    hide *;
    Symbols();
    match l
    case Str(pieces) =>
      StringText(pieces);
      FirstCode(t, i, QUOTE, PrintPieces(pieces));
      StringIsRead(t, i + 1, pieces);
      StringValue(t, i, Codes(pieces), i + |Print(l)|);
    case Arr(inside, items) =>
      ArrayText(inside, items);
      FirstCode(t, i, OPEN, if items == [] then inside + [CLOSE] else PrintItems(items));
      if items == [] {
        EmptyInside(t, i + 1, inside, CLOSE);
        EmptyValue(t, i, i + 1 + |inside|);
      } else {
        ItemsAreRead(t, i + 1, items);
        ArrayValue(t, i, Meanings(items), i + |Print(l)|);
      }
    case Obj(inside, members) =>
      ObjectText(inside, members);
      FirstCode(t, i, BRACE, if members == [] then inside + [UNBRACE] else PrintMembers(members));
      if members == [] {
        EmptyInside(t, i + 1, inside, UNBRACE);
        EmptyValue(t, i, i + 1 + |inside|);
      } else {
        MembersAreRead(t, i + 1, members);
        ObjectValue(t, i, i + |Print(l)|);
      }
  }

  lemma {:induction false} NotClosed(t: Text, j: nat)
    requires j < |t| && !Closes(t[j])
    ensures t[j] != CLOSE && t[j] != UNBRACE
  {
  }

  lemma {:induction false} ItemsAreRead(t: Text, i: nat, items: seq<Item>)
    requires items != [] && (forall k :: 0 <= k < |items| ==> ItemOk(items[k])) && TextAt(t, i, PrintItems(items))
    ensures SkipSpace(t, i) < |t| && t[SkipSpace(t, i)] != CLOSE
    ensures Items(t, SkipSpace(t, i)) == Some(Parsed(Meanings(items), i + |PrintItems(items)|))
    decreases items, 0
  {
    hide *;
    Symbols();
    ItemsText(items);
    var item := items[0];
    ItemParts(item);
    ItemFacts(t, i, item, ItemsRest(items));
    var start := i + |item.before|;
    var end := start + |Print(item.value)|;
    var next := end + |item.after|;
    NotClosed(t, start);
    LayoutIsRead(t, start, item.value);
    if |items| == 1 {
      LastOfItems(t, start, Meaning(item.value), end, next);
    } else {
      FirstCode(t, next, COMMA, PrintItems(items[1..]));
      ItemsAreRead(t, next + 1, items[1..]);
      MoreItems(t, start, Meaning(item.value), end, next, Meanings(items[1..]), i + |PrintItems(items)|);
    }
  }

  lemma {:induction false} NameIsRead(t: Text, i: nat, m: Member, rest: Text)
    requires Blank(m.before) && StringOk(m.name) && Blank(m.gap)
    requires TextAt(t, i, m.before + ([QUOTE] + (PrintPieces(m.name) + (m.gap + ([COLON] + rest)))))
    ensures var start := i + |m.before|;
            var next := start + 1 + |PrintPieces(m.name)| + |m.gap| + 1;
            && SkipSpace(t, i) == start < |t| && t[start] == QUOTE && TextAt(t, next, rest)
            && MemberValue(t, start) == Some(SkipSpace(t, next))
  {
    var start := i + |m.before|;
    var named := start + 1 + |PrintPieces(m.name)|;
    var colon := named + |m.gap|;
    hide TextAt, PrintPieces, StringOk, ScanString, SkipSpace, Blank;
    AtSplit(t, i, m.before, [QUOTE] + (PrintPieces(m.name) + (m.gap + ([COLON] + rest))));
    FirstCode(t, start, QUOTE, PrintPieces(m.name) + (m.gap + ([COLON] + rest)));
    AtSplit(t, start + 1, PrintPieces(m.name), m.gap + ([COLON] + rest));
    AtSplit(t, named, m.gap, [COLON] + rest);
    FirstCode(t, colon, COLON, rest);
    SkipBlank(t, i, m.before);
    SkipBlank(t, named, m.gap);
    StringIsRead(t, start + 1, m.name);
  }

  lemma {:induction false} MembersAreRead(t: Text, i: nat, members: seq<Member>)
    requires members != [] && (forall k :: 0 <= k < |members| ==> MemberOk(members[k]))
    requires TextAt(t, i, PrintMembers(members))
    ensures SkipSpace(t, i) < |t| && t[SkipSpace(t, i)] != UNBRACE
    ensures Members(t, SkipSpace(t, i)) == Some(i + |PrintMembers(members)|)
    decreases members, 0
  {
    hide *;
    Symbols();
    MembersText(members);
    var m := members[0];
    MemberParts(m);
    ItemParts(m.item);
    NameIsRead(t, i, m, PrintItem(m.item, MembersRest(members)));
    var lead := i + |m.before| + 1 + |PrintPieces(m.name)| + |m.gap| + 1;
    ItemFacts(t, lead, m.item, MembersRest(members));
    var start := lead + |m.item.before|;
    var end := start + |Print(m.item.value)|;
    var next := end + |m.item.after|;
    LayoutIsRead(t, start, m.item.value);
    if |members| == 1 {
      LastOfMembers(t, i + |m.before|, start, Meaning(m.item.value), end, next);
    } else {
      FirstCode(t, next, COMMA, PrintMembers(members[1..]));
      MembersAreRead(t, next + 1, members[1..]);
      MoreMembers(t, i + |m.before|, start, Meaning(m.item.value), end, next, i + |PrintMembers(members)|);
    }
  }

  // ----- Nothing else is read ---------------------------------------------------------

  lemma {:induction false} BlankOf(t: Text, i: nat) returns (blank: Text)
    requires i <= |t|
    ensures Blank(blank) && TextAt(t, i, blank) && SkipSpace(t, i) == i + |blank|
  {
    SkipSpaceMeans(t, i);
    blank := t[i..SkipSpace(t, i)];
    AtSlice(t, i, SkipSpace(t, i));
  }

  lemma {:induction false} ItemOf(t: Text, i: nat, before: Text, value: Layout) returns (item: Item)
    requires Blank(before) && WellFormed(value) && TextAt(t, i, before) && TextAt(t, i + |before|, Print(value))
    requires i + |before| + |Print(value)| <= |t|
    ensures item.before == before && item.value == value && ItemOk(item)
    ensures var end := i + |before| + |Print(value)|;
            TextAt(t, end, item.after) && SkipSpace(t, end) == end + |item.after|
  {
    hide *;
    var after := BlankOf(t, i + |before| + |Print(value)|);
    item := Item(before, value, after);
    ItemParts(item);
  }

  lemma {:induction false} ItemsCons(item: Item, rest: seq<Item>)
    ensures var all := [item] + rest;
            && all != [] && all[0] == item && all[1..] == rest
            && ((forall k :: 0 <= k < |all| ==> ItemOk(all[k])) <==>
                  ItemOk(item) && forall k :: 0 <= k < |rest| ==> ItemOk(rest[k]))
  {
    var all := [item] + rest;
    hide ItemOk;
    assert forall k :: 0 <= k < |rest| ==> rest[k] == all[k + 1];
    assert forall k :: 0 < k < |all| ==> all[k] == rest[k - 1];
  }

  lemma {:induction false} MembersCons(m: Member, rest: seq<Member>)
    ensures var all := [m] + rest;
            && all != [] && all[0] == m && all[1..] == rest
            && ((forall k :: 0 <= k < |all| ==> MemberOk(all[k])) <==>
                  MemberOk(m) && forall k :: 0 <= k < |rest| ==> MemberOk(rest[k]))
  {
    var all := [m] + rest;
    hide MemberOk;
    assert forall k :: 0 <= k < |rest| ==> rest[k] == all[k + 1];
    assert forall k :: 0 < k < |all| ==> all[k] == rest[k - 1];
  }

  /** How a value that is read starts. */
  lemma {:induction false} ValueCases(t: Text, i: nat)
    requires Value(t, i).Some?
    ensures i < |t| && Value(t, i).value.next <= |t|
    ensures t[i] == QUOTE ==> ScanString(t, i + 1).Some?
    ensures t[i] == OPEN || t[i] == BRACE ==>
              var j, close := SkipSpace(t, i + 1), if t[i] == OPEN then CLOSE else UNBRACE;
              (j < |t| && t[j] == close) || (if t[i] == OPEN then Items(t, j).Some? else Members(t, j).Some?)
    ensures t[i] != QUOTE && t[i] != OPEN && t[i] != BRACE ==> Scalar(t, i).Some? && Value(t, i) == Scalar(t, i)
  {
    hide ScanString, SkipSpace, Scalar, Items, Members;
  }

  lemma {:induction false} ItemsCases(t: Text, i: nat)
    requires Items(t, i).Some?
    ensures Value(t, i).Some? && Value(t, i).value.next <= |t|
    ensures var j := SkipSpace(t, Value(t, i).value.next);
            && j < |t| && (t[j] == CLOSE || t[j] == COMMA)
            && (t[j] == COMMA ==> j + 1 <= |t| && Items(t, SkipSpace(t, j + 1)).Some?)
  {
    hide Value, SkipSpace;
  }

  lemma {:induction false} MembersCases(t: Text, i: nat)
    requires Members(t, i).Some?
    ensures MemberValue(t, i).Some? && Value(t, MemberValue(t, i).value).Some?
    ensures Value(t, MemberValue(t, i).value).value.next <= |t|
    ensures var j := SkipSpace(t, Value(t, MemberValue(t, i).value).value.next);
            && j < |t| && (t[j] == UNBRACE || t[j] == COMMA)
            && (t[j] == COMMA ==> j + 1 <= |t| && Members(t, SkipSpace(t, j + 1)).Some?)
  {
    hide MemberValue, Value, SkipSpace;
  }

  /** Every value that is read is the layout of one. */
  lemma {:induction false} LayoutOf(t: Text, i: nat) returns (l: Layout)
    requires Value(t, i).Some?
    ensures WellFormed(l) && TextAt(t, i, Print(l)) && i + |Print(l)| <= |t|
    ensures Value(t, i) == Some(Parsed(Meaning(l), i + |Print(l)|))
    decreases |t| - i, 2
  {
    hide *;
    ValueCases(t, i);
    if t[i] == QUOTE {
      AtOne(t, i, QUOTE);
      var pieces := StringOf(t, i + 1);
      StringText(pieces);
      AtJoin(t, i, [QUOTE], PrintPieces(pieces));
      l := Str(pieces);
    } else if t[i] == OPEN || t[i] == BRACE {
      l := NestedOf(t, i);
    } else {
      l := ScalarOf(t, i);
      ScalarMeans(l);
    }
    StartsInside(t, i, Print(l));
    if !l.Word? && !l.Number? {
      NestedIsRead(t, i, l);
    }
  }

  lemma {:induction false} ScalarMeans(l: Layout)
    requires l.Word? || l.Number?
    ensures Meaning(l) == JOther
  {
  }

  lemma {:induction false} NestedOf(t: Text, i: nat) returns (l: Layout)
    requires Value(t, i).Some? && i < |t| && (t[i] == OPEN || t[i] == BRACE)
    ensures (l.Arr? || l.Obj?) && WellFormed(l) && TextAt(t, i, Print(l))
    decreases |t| - i, 1
  {
    hide *;
    Symbols();
    ValueCases(t, i);
    var j, close := SkipSpace(t, i + 1), if t[i] == OPEN then CLOSE else UNBRACE;
    AtOne(t, i, t[i]);
    var inside := BlankOf(t, i + 1);
    if j < |t| && t[j] == close {
      AtOne(t, j, close);
      AtJoin(t, i + 1, inside, [close]);
      AtJoin(t, i, [t[i]], inside + [close]);
      l := if t[i] == OPEN then Arr(inside, []) else Obj(inside, []);
      if t[i] == OPEN {
        ArrayText(inside, []);
      } else {
        ObjectText(inside, []);
      }
    } else if t[i] == OPEN {
      var items := ItemsOf(t, i + 1);
      NoBlank();
      ArrayText([], items);
      AtJoin(t, i, [OPEN], PrintItems(items));
      l := Arr([], items);
    } else {
      var members := MembersOf(t, i + 1);
      NoBlank();
      ObjectText([], members);
      AtJoin(t, i, [BRACE], PrintMembers(members));
      l := Obj([], members);
    }
  }

  lemma {:induction false} NoBlank()
    ensures Blank([])
  {
  }

  lemma {:induction false} ItemsOf(t: Text, i: nat) returns (items: seq<Item>)
    requires i <= |t| && Items(t, SkipSpace(t, i)).Some?
    ensures items != [] && (forall k :: 0 <= k < |items| ==> ItemOk(items[k])) && TextAt(t, i, PrintItems(items))
    decreases |t| - i, 4
  {
    hide *;
    var before := BlankOf(t, i);
    var start := i + |before|;
    ItemsCases(t, start);
    var value := LayoutOf(t, start);
    var item := ItemOf(t, i, before, value);
    var next := start + |Print(value)| + |item.after|;
    var rest: seq<Item> := [];
    if t[next] == CLOSE {
      AtOne(t, next, CLOSE);
    } else {
      rest := ItemsOf(t, next + 1);
      AtOne(t, next, COMMA);
      AtJoin(t, next, [COMMA], PrintItems(rest));
    }
    items := [item] + rest;
    ItemsCons(item, rest);
    ItemsText(items);
    ItemAt(t, i, item, ItemsRest(items));
  }

  /** The name of a member, from its quote to the blank behind its colon. */
  lemma {:induction false} NameOf(t: Text, i: nat) returns (name: seq<Piece>, gap: Text)
    requires MemberValue(t, i).Some?
    ensures StringOk(name) && Blank(gap)
    ensures var named := i + 1 + |PrintPieces(name)|;
            && i < |t| && t[i] == QUOTE && TextAt(t, i + 1, PrintPieces(name)) && TextAt(t, named, gap)
            && named + |gap| < |t| && t[named + |gap|] == COLON
            && MemberValue(t, i) == Some(SkipSpace(t, named + |gap| + 1))
  {
    hide ScanString, SkipSpace, StringOk, Blank, TextAt, PrintPieces;
    name := StringOf(t, i + 1);
    gap := BlankOf(t, i + 1 + |PrintPieces(name)|);
  }

  lemma {:induction false} MemberAt(t: Text, i: nat, m: Member, rest: Text)
    requires var start := i + |m.before|;
             var named := start + 1 + |PrintPieces(m.name)|;
             var colon := named + |m.gap|;
             && TextAt(t, i, m.before) && start < |t| && t[start] == QUOTE && TextAt(t, start + 1, PrintPieces(m.name))
             && TextAt(t, named, m.gap) && colon < |t| && t[colon] == COLON && TextAt(t, colon + 1, rest)
    ensures TextAt(t, i, m.before + ([QUOTE] + (PrintPieces(m.name) + (m.gap + ([COLON] + rest)))))
  {
    hide *;
    var start := i + |m.before|;
    var named := start + 1 + |PrintPieces(m.name)|;
    var colon := named + |m.gap|;
    AtOne(t, start, QUOTE);
    AtOne(t, colon, COLON);
    AtJoin(t, colon, [COLON], rest);
    AtJoin(t, named, m.gap, [COLON] + rest);
    AtJoin(t, start + 1, PrintPieces(m.name), m.gap + ([COLON] + rest));
    AtJoin(t, start, [QUOTE], PrintPieces(m.name) + (m.gap + ([COLON] + rest)));
    AtJoin(t, i, m.before, [QUOTE] + (PrintPieces(m.name) + (m.gap + ([COLON] + rest))));
  }

  lemma {:induction false} MembersOf(t: Text, i: nat) returns (members: seq<Member>)
    requires i <= |t| && Members(t, SkipSpace(t, i)).Some?
    ensures members != [] && (forall k :: 0 <= k < |members| ==> MemberOk(members[k]))
    ensures TextAt(t, i, PrintMembers(members))
    decreases |t| - i, 4
  {
    hide *;
    var before := BlankOf(t, i);
    MembersCases(t, i + |before|);
    var name, gap := NameOf(t, i + |before|);
    var lead := i + |before| + 1 + |PrintPieces(name)| + |gap| + 1;
    var blank := BlankOf(t, lead);
    var start := lead + |blank|;
    var value := LayoutOf(t, start);
    var item := ItemOf(t, lead, blank, value);
    var next := start + |Print(value)| + |item.after|;
    var rest: seq<Member> := [];
    if t[next] == UNBRACE {
      AtOne(t, next, UNBRACE);
    } else {
      rest := MembersOf(t, next + 1);
      AtOne(t, next, COMMA);
      AtJoin(t, next, [COMMA], PrintMembers(rest));
    }
    var m := Member(before, name, gap, item);
    members := [m] + rest;
    MemberParts(m);
    MembersCons(m, rest);
    MembersText(members);
    ItemAt(t, lead, item, MembersRest(members));
    MemberAt(t, i, m, PrintItem(item, MembersRest(members)));
  }

  // ----- Headers ----------------------------------------------------------------------

  lemma {:induction false} WholeText(t: Text, item: Item)
    requires ItemOk(item) && t == item.before + (Print(item.value) + item.after)
    ensures var start := |item.before|;
            var end := start + |Print(item.value)|;
            && SkipSpace(t, 0) == start && TextAt(t, start, Print(item.value))
            && Ends(t, end) && SkipSpace(t, end) == |t|
  {
    hide *;
    var start := |item.before|;
    var end := start + |Print(item.value)|;
    ItemParts(item);
    AtAll(t);
    AtSplit(t, 0, item.before, Print(item.value) + item.after);
    AtSplit(t, start, Print(item.value), item.after);
    BehindValue(t, start, item);
    SkipBlank(t, 0, item.before);
    SkipBlank(t, end, item.after);
  }

  lemma {:induction false} AtAll(t: Text)
    ensures TextAt(t, 0, t)
  {
  }

  lemma {:induction false} BehindValue(t: Text, start: nat, item: Item)
    requires WellFormed(item.value) && Blank(item.after) && TextAt(t, start, Print(item.value))
    requires var end := start + |Print(item.value)|; TextAt(t, end, item.after) && end + |item.after| == |t|
    ensures start < |t| && t[start] != 32 && t[start] != 9 && t[start] != 10 && t[start] != 13
    ensures Ends(t, start + |Print(item.value)|)
  {
    FirstOf(item.value);
    hide Print, WellFormed;
    assert t[start + 0] == Print(item.value)[0];
    assert item.after != [] ==> t[start + |Print(item.value)| + 0] == item.after[0];
  }

  lemma {:induction false} LoadsOf(t: Text, v: Json, next: nat)
    requires Value(t, SkipSpace(t, 0)) == Some(Parsed(v, next)) && SkipSpace(t, next) == |t|
    ensures Loads(t) == Some(v)
  {
    hide Value, SkipSpace;
  }

  lemma {:induction false} LoadsCases(t: Text)
    requires Loads(t).Some?
    ensures var v := Value(t, SkipSpace(t, 0));
            v.Some? && v.value.next <= |t| && SkipSpace(t, v.value.next) == |t| && Loads(t) == Some(v.value.value)
  {
    hide Value, SkipSpace;
  }

  /** The reader reads exactly the JSON texts, each as what it says. */
  lemma {:induction false} ReadsExactlyJson(t: Text, v: Json)
    ensures Loads(t) == Some(v) <==>
            exists item :: ItemOk(item) && t == item.before + (Print(item.value) + item.after)
                           && Meaning(item.value) == v
  {
    if Loads(t) == Some(v) {
      var item := TextOf(t);
    }
    if item :| ItemOk(item) && t == item.before + (Print(item.value) + item.after) && Meaning(item.value) == v {
      TextIsRead(t, item);
    }
    hide *;
  }

  lemma {:induction false} TextIsRead(t: Text, item: Item)
    requires ItemOk(item) && t == item.before + (Print(item.value) + item.after)
    ensures Loads(t) == Some(Meaning(item.value))
  {
    hide *;
    WholeText(t, item);
    ItemParts(item);
    LayoutIsRead(t, |item.before|, item.value);
    LoadsOf(t, Meaning(item.value), |item.before| + |Print(item.value)|);
  }

  lemma {:induction false} TextOf(t: Text) returns (item: Item)
    requires Loads(t).Some?
    ensures ItemOk(item) && t == item.before + (Print(item.value) + item.after) && Loads(t) == Some(Meaning(item.value))
  {
    hide *;
    LoadsCases(t);
    var before := BlankOf(t, 0);
    var value := LayoutOf(t, |before|);
    item := ItemOf(t, 0, before, value);
    AtJoin(t, |before|, Print(value), item.after);
    AtJoin(t, 0, before, Print(value) + item.after);
    AllOf(t, before + (Print(value) + item.after));
  }

  lemma {:induction false} AllOf(t: Text, s: Text)
    requires TextAt(t, 0, s) && |s| == |t|
    ensures t == s
  {
    assert forall k :: 0 <= k < |s| ==> t[0 + k] == s[k];
  }

  /** An entry stands for a slot exactly if it is an array of its three fields, none of them
      empty or longer than 200. */
  lemma {:induction false} SlotOfMeans(j: Json, s: Slot)
    ensures SlotOf(j) == Some(s) <==>
            && j == JArray([JString(s.itemType), JString(s.name), JString(s.itemKey)])
            && 0 < |s.itemType| <= 200 && 0 < |s.name| <= 200 && 0 < |s.itemKey| <= 200
  {
    if SlotOf(j) == Some(s) {
      assert j.items == [j.items[0], j.items[1], j.items[2]];
    }
  }

  /** The slots that meet a condition, in order. */
  function Kept(slots: seq<Slot>, kept: Slot -> bool): seq<Slot> {
    if slots == [] then []
    else Kept(slots[..|slots| - 1], kept) + if kept(slots[|slots| - 1]) then [slots[|slots| - 1]] else []
  }

  lemma {:induction false} KeptRows(slots: seq<Slot>, items: seq<Json>, n: nat, kept: Slot -> bool)
    requires n <= |slots| && n <= |items| && forall k :: 0 <= k < n ==> items[k] == Row(slots[k])
    requires forall s :: kept(s) <==> ValidSlot(s)
    ensures SlotsOf(items, n) == Kept(slots[..n], kept)
  {
    if n > 0 {
      KeptRows(slots, items, n - 1, kept);
      SlotOfRow(slots[n - 1]);
      assert slots[..n][..n - 1] == slots[..n - 1];
      hide SlotOf, ValidSlot, Row;
    }
  }

  /** Whoever wrote it and however it is spaced and escaped: a header that says an array is decoded
      to the slots among its first 64 entries, in order. */
  lemma {:induction false} HeaderIsDecoded(item: Item, header: Text)
    requires ItemOk(item) && header == item.before + (Print(item.value) + item.after) && |header| <= 8192
    ensures var v := Meaning(item.value);
            Decoded(header) == if v.JArray? then SlotsOf(v.items, AtMost(|v.items|, 64)) else []
  {
    TextIsRead(header, item);
    FirstOf(item.value);
    hide Print, WellFormed, Meaning, Loads, SlotsOf, ItemOk;
  }

  /** Any other header is no slots. */
  lemma {:induction false} OtherHeaders(header: Text)
    requires forall item :: ItemOk(item) ==> header != item.before + (Print(item.value) + item.after)
    ensures Decoded(header) == []
  {
    if Loads(header).Some? {
      var item := TextOf(header);
    }
    hide Print, ItemOk, Loads;
  }

  /** So a header that says these slots is decoded to those of the first 64 whose fields are
      neither empty nor longer than 200. */
  lemma {:induction false} AnyHeaderIsDecoded(item: Item, header: Text, slots: seq<Slot>)
    requires ItemOk(item) && header == item.before + (Print(item.value) + item.after) && |header| <= 8192
    requires Meaning(item.value) == JArray(Rows(slots, |slots|))
    ensures var kept := (s: Slot) => 0 < |s.itemType| <= 200 && 0 < |s.name| <= 200 && 0 < |s.itemKey| <= 200;
            Decoded(header) == Kept(slots[..AtMost(|slots|, 64)], kept)
  {
    var kept := (s: Slot) => 0 < |s.itemType| <= 200 && 0 < |s.name| <= 200 && 0 < |s.itemKey| <= 200;
    HeaderIsDecoded(item, header);
    hide Print, WellFormed, Meaning, Decoded, ItemOk;
    RowsAre(slots, |slots|);
    KeptRows(slots, Rows(slots, |slots|), AtMost(|slots|, MAX_SLOTS), kept);
  }

  // ----- What is written --------------------------------------------------------------

  ghost predicate Ascii(s: Text) {
    forall k :: 0 <= k < |s| ==> 32 <= s[k] <= 126
  }

  /** How each character is written: printable ASCII as it is, but for the quote and the
      backslash; those two and five control characters with a short escape; all else as one
      or, beyond the first 65536, two hexadecimal escapes. */
  lemma {:induction false} CodeIsWritten(c: Code)
    ensures var e := EncodeCode(c);
            var short := map[34 := 34, 92 := 92, 8 := 98, 9 := 116, 10 := 110, 12 := 102, 13 := 114];
            && Ascii(e)
            && (c in short ==> e == [92, short[c]])
            && (c !in short && 32 <= c <= 126 ==> e == [c])
            && (c !in short && !(32 <= c <= 126) && c < 0x10000 ==> HexSpelling(e, c))
            && (c >= 0x10000 ==> |e| == 12 && HexSpelling(e[..6], 0xD800 + (c - 0x10000) / 1024)
                                 && HexSpelling(e[6..], 0xDC00 + (c - 0x10000) % 1024))
  {
    var e := EncodeCode(c);
    if c >= 0x10000 {
      var high, low := Escape(0xD800 + (c - 0x10000) / 1024), Escape(0xDC00 + (c - 0x10000) % 1024);
      assert e == high + low && e[..6] == high && e[6..] == low;
      EscapeIsWritten(0xD800 + (c - 0x10000) / 1024);
      EscapeIsWritten(0xDC00 + (c - 0x10000) % 1024);
      hide Escape, HexSpelling, EncodeCode;
    } else if ShortEscape(c) == 0 && !(32 <= c <= 126) {
      EscapeIsWritten(c);
      hide Escape, HexSpelling;
    }
  }

  lemma {:induction false} EscapeIsWritten(c: int)
    requires 0 <= c < 0x10000
    ensures HexSpelling(Escape(c), c) && Ascii(Escape(c))
  {
  }

  lemma {:induction false} StringIsAscii(s: Text, n: nat)
    requires n <= |s|
    ensures Ascii(EncodeFrom(s, n))
    decreases |s| - n
  {
    if n < |s| {
      CodeIsWritten(s[n]);
      hide EncodeCode;
      StringIsAscii(s, n + 1);
    }
  }

  lemma {:induction false} DumpsAscii(j: Json)
    requires Plain(j)
    ensures Ascii(Dumps(j))
    decreases j, 0
  {
    hide EncodeFrom, DumpsItems;
    match j
    case JString(s) => StringIsAscii(s, 0);
    case JArray(items) =>
      if items != [] {
        DumpsItemsAscii(items, 0);
      }
  }

  lemma {:induction false} DumpsItemsAscii(items: seq<Json>, n: nat)
    requires n < |items| && forall k :: 0 <= k < |items| ==> Plain(items[k])
    ensures Ascii(DumpsItems(items, n))
    decreases items, |items| - n
  {
    hide Dumps, Plain;
    DumpsAscii(items[n]);
    if n + 1 < |items| {
      DumpsItemsAscii(items, n + 1);
    }
  }

  /** Whatever the slots hold, the header is printable ASCII. */
  lemma {:induction false} HeaderIsAscii(slots: seq<Slot>)
    ensures forall k :: 0 <= k < |EncodeItemSlots(slots)| ==> 32 <= EncodeItemSlots(slots)[k] <= 126
  {
    RowsPlain(slots, AtMost(|slots|, MAX_SLOTS));
    hide Rows, Dumps, Plain;
    DumpsAscii(JArray(Rows(slots, AtMost(|slots|, MAX_SLOTS))));
  }
}
