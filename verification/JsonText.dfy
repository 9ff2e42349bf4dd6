/**
 The characters of a canonical text: how JSON.stringify spells the tokens one after another.

 How a number is spelled is a parameter. Of the numbers a program can hold it is known that they are
 spelled in number characters only, and different ones differently.
 */
module JsonText {
  import opened CanonicalJson
  import Decimal

  predicate IsNumberChar(c: char) {
    '0' <= c <= '9' || c == '-' || c == '+' || c == '.' || c == 'e'
  }

  predicate OnlyNumberChars(s: string) {
    forall i :: 0 <= i < |s| ==> IsNumberChar(s[i])
  }

  /** What is known of the spelling of some numbers; no spelling can tell all real numbers apart. */
  ghost predicate SpellsNumbers(number: real -> string, known: iset<real>) {
    && (forall r :: r in known ==> number(r) != "" && OnlyNumberChars(number(r)))
    && (forall r, s :: r in known && s in known && number(r) == number(s) ==> r == s)
  }

  ghost predicate IsKnown(t: Token, known: iset<real>) {
    t.Num? ==> t.r in known
  }

  /** Every number of the text is one of those. */
  ghost predicate AllKnown(tokens: seq<Token>, known: iset<real>) {
    forall i :: 0 <= i < |tokens| ==> IsKnown(tokens[i], known)
  }

  function HexDigit(n: nat): char
    requires n < 16
  {
    if n < 10 then '0' + n as char else 'a' + (n - 10) as char
  }

  /** A character within a string: quotes, backslashes and control characters are escaped. */
  function EscapeChar(c: char): (r: string)
    ensures r != ""
  {
    match c
    case '\"' => "\\\""
    case '\\' => "\\\\"
    case '\n' => "\\n"
    case '\r' => "\\r"
    case '\t' => "\\t"
    case _ =>
      var n := c as int;
      if n == 8 then "\\b"
      else if n == 12 then "\\f"
      else if n < 32 then ['\\', 'u', '0', '0', HexDigit(n / 16), HexDigit(n % 16)]
      else [c]
  }

  function Escape(s: string): string {
    if s == "" then "" else EscapeChar(s[0]) + Escape(s[1..])
  }

  function SpellToken(t: Token, number: real -> string): string {
    match t
    case Open => "{"
    case Close => "}"
    case OpenList => "["
    case CloseList => "]"
    case Comma => ","
    case Colon => ":"
    case Null => "null"
    case Flag(b) => if b then "true" else "false"
    case Num(r) => number(r)
    case Str(s) => "\"" + Escape(s) + "\""
  }

  function Spell(tokens: seq<Token>, number: real -> string): string {
    if tokens == [] then "" else SpellToken(tokens[0], number) + Spell(tokens[1..], number)
  }

  // ----- a spelling that tells infinitely many numbers apart -----

  ghost const WHOLE := iset r: real | r == r.Floor as real

  /** Whole numbers as decimal numerals; what becomes of others does not matter. */
  function WholeNumeral(r: real): string {
    if r >= 0.0 then Decimal.Print(r.Floor) else "-" + Decimal.Print(-r.Floor)
  }

  lemma DigitsAreNumberChars(s: string)
    requires Decimal.AllDigits(s)
    ensures OnlyNumberChars(s)
  {
    forall i | 0 <= i < |s| ensures IsNumberChar(s[i]) { assert Decimal.IsDigit(s[i]); }
  }

  /** The value of a whole number's numeral, read back. */
  lemma NumeralDetermines(r: real, s: real)
    requires r in WHOLE && s in WHOLE && WholeNumeral(r) == WholeNumeral(s)
    ensures r == s
  {
    var m, n := if r >= 0.0 then r.Floor else -r.Floor, if s >= 0.0 then s.Floor else -s.Floor;
    Decimal.PrintThenValue(m);
    Decimal.PrintThenValue(n);
    var p, q := Decimal.Print(m), Decimal.Print(n);
    assert Decimal.IsDigit(p[0]) && Decimal.IsDigit(q[0]);
    assert p == if r >= 0.0 then WholeNumeral(r) else WholeNumeral(r)[1..];
    assert q == if s >= 0.0 then WholeNumeral(s) else WholeNumeral(s)[1..];
    assert WholeNumeral(r)[0] == '-' <==> r < 0.0;
    assert WholeNumeral(s)[0] == '-' <==> s < 0.0;
  }

  /** The hypothesis about spelling is met, for all whole numbers at once, by their numerals. */
  lemma WholeNumeralsSpell()
    ensures SpellsNumbers(WholeNumeral, WHOLE)
  {
    forall r | r in WHOLE ensures WholeNumeral(r) != "" && OnlyNumberChars(WholeNumeral(r)) {
      DigitsAreNumberChars(Decimal.Print(if r >= 0.0 then r.Floor else -r.Floor));
    }
    forall r, s | r in WHOLE && s in WHOLE && WholeNumeral(r) == WholeNumeral(s) ensures r == s {
      NumeralDetermines(r, s);
    }
  }

  // ----- strings -----

  lemma HexDigitsDiffer(m: nat, n: nat)
    requires m < 16 && n < 16 && HexDigit(m) == HexDigit(n)
    ensures m == n
  {
  }

  lemma CancelFront(p: string, u: string, v: string)
    requires p + u == p + v
    ensures u == v
  {
    assert u == (p + u)[|p|..] && v == (p + v)[|p|..];
  }

  lemma Regroup(a: string, b: string, c: string)
    ensures a + b + c == a + (b + c)
  {
  }

  /** An escape is one character, or a backslash and what its next character announces. */
  lemma EscapeForm(c: char)
    ensures var e := EscapeChar(c);
            if |e| == 1 then e == [c] && c != '\"' && c != '\\'
            else e[0] == '\\' && (if e[1] == 'u' then |e| == 6 else |e| == 2)
  {
  }

  lemma EscapesDiffer(c: char, d: char)
    requires EscapeChar(c) == EscapeChar(d)
    ensures c == d
  {
    EscapeForm(c);
    EscapeForm(d);
    var e := EscapeChar(c);
    if |e| == 6 {
      assert e[4] == HexDigit(c as int / 16) == HexDigit(d as int / 16);
      assert e[5] == HexDigit(c as int % 16) == HexDigit(d as int % 16);
      HexDigitsDiffer(c as int / 16, d as int / 16);
      HexDigitsDiffer(c as int % 16, d as int % 16);
    }
  }

  /** An escape read from the front of a text is read in one way only. */
  lemma EscapeCharDetermines(c: char, d: char, u: string, v: string)
    requires EscapeChar(c) + u == EscapeChar(d) + v
    ensures c == d && u == v
  {
    var e, f := EscapeChar(c), EscapeChar(d);
    EscapeForm(c);
    EscapeForm(d);
    assert (e + u)[0] == e[0] && (f + v)[0] == f[0];
    if |e| > 1 && |f| > 1 { assert (e + u)[1] == e[1] && (f + v)[1] == f[1]; }
    assert |e| == |f|;
    assert e == (e + u)[..|e|] && f == (f + v)[..|f|];
    EscapesDiffer(c, d);
    CancelFront(e, u, v);
  }

  /** A string read from the front of a text ends at its first quote that is not escaped. */
  lemma {:induction false} StringDetermines(s: string, t: string, u: string, v: string)
    requires Escape(s) + ("\"" + u) == Escape(t) + ("\"" + v)
    ensures s == t && u == v
  {
    var a, b := "\"" + u, "\"" + v;
    if s == "" && t == "" {
      assert Escape(s) + a == a && Escape(t) + b == b;
      CancelFront("\"", u, v);
    } else if s == "" || t == "" {
      QuoteIsNoEscape(s, t, a, b);
      assert false;
    } else {
      Regroup(EscapeChar(s[0]), Escape(s[1..]), a);
      Regroup(EscapeChar(t[0]), Escape(t[1..]), b);
      EscapeCharDetermines(s[0], t[0], Escape(s[1..]) + a, Escape(t[1..]) + b);
      StringDetermines(s[1..], t[1..], u, v);
      assert s == [s[0]] + s[1..] && t == [t[0]] + t[1..];
    }
  }

  lemma QuoteIsNoEscape(s: string, t: string, a: string, b: string)
    requires a != "" && b != "" && a[0] == '\"' && b[0] == '\"'
    requires (s == "") != (t == "")
    ensures Escape(s) + a != Escape(t) + b
  {
    var c := if s == "" then t[0] else s[0];
    EscapeForm(c);
    assert EscapeChar(c)[0] != '\"';
    if s == "" {
      assert (Escape(s) + a)[0] == '\"' && (Escape(t) + b)[0] == EscapeChar(c)[0];
    } else {
      assert (Escape(t) + b)[0] == '\"' && (Escape(s) + a)[0] == EscapeChar(c)[0];
    }
  }

  // ----- tokens -----

  predicate StartsWithNumberChar(s: string) {
    s != "" && IsNumberChar(s[0])
  }

  lemma FirstChar(t: Token, number: real -> string, known: iset<real>)
    requires SpellsNumbers(number, known) && IsKnown(t, known)
    ensures SpellToken(t, number) != "" && (StartsWithNumberChar(SpellToken(t, number)) <==> t.Num?)
  {
    if t.Num? { assert number(t.r) != "" && OnlyNumberChars(number(t.r)); }
  }

  lemma LongerFront(p: string, q: string, u: string, v: string)
    requires p + u == q + v && |p| < |q|
    ensures u != "" && u[0] == q[|p|]
  {
    assert (p + u)[|p|] == (q + v)[|p|] == q[|p|];
  }

  /** A number ends where the number characters end. */
  lemma NumberDetermines(p: string, q: string, u: string, v: string)
    requires OnlyNumberChars(p) && OnlyNumberChars(q) && p + u == q + v
    requires !StartsWithNumberChar(u) && !StartsWithNumberChar(v)
    ensures p == q && u == v
  {
    if |p| < |q| { LongerFront(p, q, u, v); }
    if |q| < |p| { LongerFront(q, p, v, u); }
    assert p == (p + u)[..|p|] && q == (q + v)[..|q|];
    CancelFront(p, u, v);
  }

  /** Tokens that are spelled in one way only, each by its first character. */
  predicate IsFixed(t: Token) {
    !t.Num? && !t.Str?
  }

  lemma FixedDetermines(a: Token, b: Token, number: real -> string, known: iset<real>)
    requires SpellsNumbers(number, known) && IsFixed(a) && IsKnown(b, known)
    requires SpellToken(a, number)[..1] == SpellToken(b, number)[..1]
    ensures a == b
  {
    FirstChar(b, number, known);
    var s, t := SpellToken(a, number), SpellToken(b, number);
    assert s[..1][0] == s[0] && t[..1][0] == t[0];
  }

  lemma SameFirst(p: string, q: string, u: string, v: string)
    requires p != "" && q != "" && p + u == q + v
    ensures p[..1] == q[..1]
  {
    assert (p + u)[0] == p[0] && (q + v)[0] == q[0];
  }

  lemma TokenDetermines(a: Token, b: Token, u: string, v: string, number: real -> string, known: iset<real>)
    requires SpellsNumbers(number, known) && IsKnown(a, known) && IsKnown(b, known)
    requires SpellToken(a, number) + u == SpellToken(b, number) + v
    requires a.Num? ==> !StartsWithNumberChar(u)
    requires b.Num? ==> !StartsWithNumberChar(v)
    ensures a == b && u == v
  {
    FirstChar(a, number, known);
    FirstChar(b, number, known);
    SameFirst(SpellToken(a, number), SpellToken(b, number), u, v);
    if IsFixed(a) {
      FixedDetermines(a, b, number, known);
      CancelFront(SpellToken(a, number), u, v);
    } else if IsFixed(b) {
      FixedDetermines(b, a, number, known);
    } else if a.Num? {
      assert SpellToken(a, number)[..1][0] == SpellToken(b, number)[..1][0];
      NumberDetermines(number(a.r), number(b.r), u, v);
    } else {
      assert SpellToken(a, number)[..1][0] == SpellToken(b, number)[..1][0];
      StringTokens(a.s, b.s, u, v);
    }
  }

  lemma StringTokens(s: string, t: string, u: string, v: string)
    requires "\"" + Escape(s) + "\"" + u == "\"" + Escape(t) + "\"" + v
    ensures s == t && u == v
  {
    var quote := "\"";
    Regroup(quote + Escape(s), quote, u);
    Regroup(quote, Escape(s), quote + u);
    Regroup(quote + Escape(t), quote, v);
    Regroup(quote, Escape(t), quote + v);
    CancelFront(quote, Escape(s) + (quote + u), Escape(t) + (quote + v));
    StringDetermines(s, t, u, v);
  }

  // ----- texts -----

  /** No two numbers stand side by side. */
  ghost predicate NumbersApart(tokens: seq<Token>) {
    forall i :: 0 <= i < |tokens| - 1 && tokens[i].Num? ==> !tokens[i + 1].Num?
  }

  predicate StartsWithNumber(tokens: seq<Token>) {
    tokens != [] && tokens[0].Num?
  }

  lemma SpelledStart(tokens: seq<Token>, number: real -> string, known: iset<real>)
    requires SpellsNumbers(number, known) && AllKnown(tokens, known)
    ensures Spell(tokens, number) == "" <==> tokens == []
    ensures StartsWithNumberChar(Spell(tokens, number)) <==> StartsWithNumber(tokens)
  {
    if tokens != [] {
      FirstChar(tokens[0], number, known);
      assert Spell(tokens, number)[0] == SpellToken(tokens[0], number)[0];
    }
  }

  lemma ApartRest(tokens: seq<Token>)
    requires tokens != [] && NumbersApart(tokens)
    ensures NumbersApart(tokens[1..]) && (tokens[0].Num? ==> !StartsWithNumber(tokens[1..]))
  {
    var rest := tokens[1..];
    forall i | 0 <= i < |rest| - 1 && rest[i].Num? ensures !rest[i + 1].Num? { assert tokens[i + 1] == rest[i]; }
  }

  /** Tokens without adjacent numbers can be told from their characters. */
  lemma {:induction false} SpellDetermines(a: seq<Token>, b: seq<Token>, number: real -> string, known: iset<real>)
    requires SpellsNumbers(number, known) && AllKnown(a, known) && AllKnown(b, known)
    requires NumbersApart(a) && NumbersApart(b)
    requires Spell(a, number) == Spell(b, number)
    ensures a == b
  {
    SpelledStart(a, number, known);
    SpelledStart(b, number, known);
    if a != [] {
      ApartRest(a);
      ApartRest(b);
      SpelledStart(a[1..], number, known);
      SpelledStart(b[1..], number, known);
      TokenDetermines(a[0], b[0], Spell(a[1..], number), Spell(b[1..], number), number, known);
      SpellDetermines(a[1..], b[1..], number, known);
      assert a == [a[0]] + a[1..] && b == [b[0]] + b[1..];
    }
  }

  lemma ApartMore(t: Token, rest: seq<Token>)
    requires NumbersApart(rest) && !(t.Num? && StartsWithNumber(rest))
    ensures NumbersApart([t] + rest)
  {
    var all := [t] + rest;
    forall i | 0 <= i < |all| - 1 && all[i].Num? ensures !all[i + 1].Num? {
      if i > 0 { assert all[i] == rest[i - 1] && all[i + 1] == rest[i]; }
    }
  }

  /** In the text of a value, whatever follows it, a number is never followed by a number. */
  lemma {:induction false} ValueApart(t: Tree, x: seq<Token>)
    requires NumbersApart(x) && !StartsWithNumber(x)
    ensures NumbersApart(Stringify(t) + x)
    decreases t, 0
  {
    match t {
      case TArr(items) =>
        ItemsApart(items, x);
        ApartMore(OpenList, StringifyItems(items) + x);
        assert [OpenList] + StringifyItems(items) + x == [OpenList] + (StringifyItems(items) + x);
      case TObj(entries) =>
        EntriesApart(entries, x);
        ApartMore(Open, StringifyEntries(entries) + x);
        assert [Open] + StringifyEntries(entries) + x == [Open] + (StringifyEntries(entries) + x);
      case _ => ApartMore(Stringify(t)[0], x);
    }
  }

  lemma {:induction false} ItemsApart(items: seq<Tree>, x: seq<Token>)
    requires NumbersApart(x) && !StartsWithNumber(x)
    ensures NumbersApart(StringifyItems(items) + x)
    decreases items, 2
  {
    if items == [] {
      ApartMore(CloseList, x);
    } else {
      MoreItemsApart(items[1..], x);
      ValueApart(items[0], MoreItems(items[1..]) + x);
      assert Stringify(items[0]) + MoreItems(items[1..]) + x == Stringify(items[0]) + (MoreItems(items[1..]) + x);
    }
  }

  lemma {:induction false} MoreItemsApart(items: seq<Tree>, x: seq<Token>)
    requires NumbersApart(x) && !StartsWithNumber(x)
    ensures NumbersApart(MoreItems(items) + x) && !StartsWithNumber(MoreItems(items) + x)
    decreases items, 2
  {
    if items == [] {
      ApartMore(CloseList, x);
    } else {
      var rest := MoreItems(items[1..]) + x;
      MoreItemsApart(items[1..], x);
      ValueApart(items[0], rest);
      ApartMore(Comma, Stringify(items[0]) + rest);
      assert MoreItems(items) + x == [Comma] + (Stringify(items[0]) + rest);
    }
  }

  lemma {:induction false} EntryApart(e: Entry, x: seq<Token>)
    requires NumbersApart(x) && !StartsWithNumber(x)
    ensures NumbersApart(StringifyEntry(e) + x) && !StartsWithNumber(StringifyEntry(e) + x)
    decreases e, 1
  {
    ValueApart(e.value, x);
    ApartMore(Colon, Stringify(e.value) + x);
    ApartMore(Str(e.key), [Colon] + (Stringify(e.value) + x));
    assert StringifyEntry(e) + x == [Str(e.key)] + ([Colon] + (Stringify(e.value) + x));
  }

  lemma {:induction false} EntriesApart(entries: seq<Entry>, x: seq<Token>)
    requires NumbersApart(x) && !StartsWithNumber(x)
    ensures NumbersApart(StringifyEntries(entries) + x)
    decreases entries, 2
  {
    if entries == [] {
      ApartMore(Close, x);
    } else {
      MoreEntriesApart(entries[1..], x);
      EntryApart(entries[0], MoreEntries(entries[1..]) + x);
      assert StringifyEntry(entries[0]) + MoreEntries(entries[1..]) + x
          == StringifyEntry(entries[0]) + (MoreEntries(entries[1..]) + x);
    }
  }

  lemma {:induction false} MoreEntriesApart(entries: seq<Entry>, x: seq<Token>)
    requires NumbersApart(x) && !StartsWithNumber(x)
    ensures NumbersApart(MoreEntries(entries) + x) && !StartsWithNumber(MoreEntries(entries) + x)
    decreases entries, 2
  {
    if entries == [] {
      ApartMore(Close, x);
    } else {
      var rest := MoreEntries(entries[1..]) + x;
      MoreEntriesApart(entries[1..], x);
      EntryApart(entries[0], rest);
      ApartMore(Comma, StringifyEntry(entries[0]) + rest);
      assert MoreEntries(entries) + x == [Comma] + (StringifyEntry(entries[0]) + rest);
    }
  }

  /** `JSON.stringify` of a value, in characters. */
  function StringifyChars(t: Tree, number: real -> string): string {
    Spell(Stringify(t), number)
  }

  /** `canonicalJson`. */
  function CanonicalChars(t: Tree, number: real -> string): string {
    StringifyChars(SortObjectKeys(t), number)
  }

  /** Different values have different texts. */
  lemma StringifyDetermines(a: Tree, b: Tree, number: real -> string, known: iset<real>)
    requires SpellsNumbers(number, known) && AllKnown(Stringify(a), known) && AllKnown(Stringify(b), known)
    requires StringifyChars(a, number) == StringifyChars(b, number)
    ensures a == b
  {
    ValueApart(a, []);
    ValueApart(b, []);
    assert Stringify(a) + [] == Stringify(a) && Stringify(b) + [] == Stringify(b);
    SpellDetermines(Stringify(a), Stringify(b), number, known);
    TextDetermines(a, b, [], []);
  }

  /** Two values have the same canonical text, and so the same hash, exactly if they differ in key order alone. */
  lemma SameCharsIff(a: Tree, b: Tree, number: real -> string, known: iset<real>)
    requires WellFormed(a) && WellFormed(b)
    requires SpellsNumbers(number, known) && AllKnown(CanonicalText(a), known) && AllKnown(CanonicalText(b), known)
    ensures CanonicalChars(a, number) == CanonicalChars(b, number) <==> Unordered(a) == Unordered(b)
  {
    SameTextIff(a, b);
    if CanonicalChars(a, number) == CanonicalChars(b, number) {
      StringifyDetermines(SortObjectKeys(a), SortObjectKeys(b), number, known);
    }
  }

  /** How the characters of a string are spelled that are not spelled as they are. */
  lemma EscapesAre(c: char)
    ensures EscapeChar('\"') == ['\\', '\"'] && EscapeChar('\\') == ['\\', '\\']
    ensures EscapeChar('\n') == ['\\', 'n'] && EscapeChar('\r') == ['\\', 'r'] && EscapeChar('\t') == ['\\', 't']
    ensures EscapeChar(8 as char) == ['\\', 'b'] && EscapeChar(12 as char) == ['\\', 'f']
    ensures EscapeChar(0 as char) == "\\u0000" && EscapeChar(31 as char) == "\\u001f"
    ensures c as int >= 32 && c != '\"' && c != '\\' ==> EscapeChar(c) == [c]
  {
  }

  lemma SpelledRest(t: Token, rest: seq<Token>, number: real -> string)
    ensures Spell([t] + rest, number) == SpellToken(t, number) + Spell(rest, number)
  {
    assert ([t] + rest)[1..] == rest;
  }

  lemma TokensAreSpelled(number: real -> string)
    ensures SpellToken(Open, number) == "{" && SpellToken(Close, number) == "}"
    ensures SpellToken(OpenList, number) == "[" && SpellToken(CloseList, number) == "]"
    ensures SpellToken(Comma, number) == "," && SpellToken(Colon, number) == ":" && SpellToken(Null, number) == "null"
    ensures SpellToken(Flag(true), number) == "true" && SpellToken(Flag(false), number) == "false"
  {
  }
}
