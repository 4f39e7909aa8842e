/** Numbers and separated pieces in text: `to_string`, `atoi` and the token loops of the parsers. */
module Text {

  // ---------- numbers ----------

  const DIGITS := "0123456789"

  function NatText(n: nat): (s: string)
    ensures |s| > 0 && forall c :: c in s ==> IsDigit(c)
  {
    if n < 10 then [DIGITS[n]] else NatText(n / 10) + [DIGITS[n % 10]]
  }

  // `std::to_string` of an integer.
  function IntText(n: int): string {
    if n < 0 then "-" + NatText(-n) else NatText(n)
  }

  predicate IsDigit(c: char) { '0' <= c <= '9' }

  function Digit(c: char): nat
    requires IsDigit(c)
  {
    (c - '0') as nat
  }

  predicate IsSpace(c: char) { c == ' ' || '\t' <= c <= '\r' }

  function DigitsValue(s: string, acc: nat): nat
    decreases |s|
  {
    if s == "" || !IsDigit(s[0]) then acc else DigitsValue(s[1..], acc * 10 + Digit(s[0]))
  }

  // `atoi`: white space, an optional sign, then digits up to the first other character.
  function Atoi(s: string): int
    decreases |s|
  {
    if s == "" then 0
    else if IsSpace(s[0]) then Atoi(s[1..])
    else if s[0] == '-' then 0 - DigitsValue(s[1..], 0)
    else if s[0] == '+' then DigitsValue(s[1..], 0)
    else DigitsValue(s, 0)
  }

  lemma {:induction false} DigitsValueAppend(s: string, c: char, acc: nat)
    requires IsDigit(c) && forall d :: d in s ==> IsDigit(d)
    ensures DigitsValue(s + [c], acc) == DigitsValue(s, acc) * 10 + Digit(c)
    decreases |s|
  {
    if s != "" {
      assert s[0] in s;
      assert (s + [c])[1..] == s[1..] + [c];
      DigitsValueAppend(s[1..], c, acc * 10 + Digit(s[0]));
    } else {
      assert (s + [c])[1..] == "";
    }
  }

  lemma {:induction false} NatTextValue(n: nat)
    ensures DigitsValue(NatText(n), 0) == n
  {
    if n < 10 {
      assert NatText(n)[1..] == "";
    } else {
      NatTextValue(n / 10);
      DigitsValueAppend(NatText(n / 10), DIGITS[n % 10], 0);
    }
  }

  lemma AtoiOfDigits(s: string)
    requires s != "" && IsDigit(s[0])
    ensures Atoi(s) == DigitsValue(s, 0) && Atoi("-" + s) == 0 - DigitsValue(s, 0)
  {
    assert ("-" + s)[1..] == s;
  }

  // A printed integer reads back, negative ones too.
  lemma {:induction false} AtoiOfIntText(n: int)
    ensures Atoi(IntText(n)) == n
  {
    var m := if n < 0 then -n else n;
    var s := NatText(m);
    NatTextValue(m);
    assert s[0] in s;
    AtoiOfDigits(s);
  }

  lemma {:induction false} DigitsValueStops(s: string, rest: string, acc: nat)
    requires forall d :: d in s ==> IsDigit(d)
    requires rest == "" || !IsDigit(rest[0])
    ensures DigitsValue(s + rest, acc) == DigitsValue(s, acc)
    decreases |s|
  {
    if s == "" {
      assert s + rest == rest;
    } else {
      assert s[0] in s && (s + rest)[1..] == s[1..] + rest;
      DigitsValueStops(s[1..], rest, acc * 10 + Digit(s[0]));
    }
  }

  // Blank, tab, line feed, vertical tab, form feed, carriage return.
  const SPACES := " \t\n\U{0B}\U{0C}\r"

  lemma {:induction false} AtoiSkipsSpace(space: string, text: string)
    requires forall c :: c in space ==> c in SPACES
    ensures Atoi(space + text) == Atoi(text)
    decreases |space|
  {
    if space == "" {
      assert space + text == text;
    } else {
      assert space[0] in space && (space + text)[1..] == space[1..] + text;
      AtoiSkipsSpace(space[1..], text);
    }
  }

  // What `atoi` reads: white space is passed over, a sign of either kind counts, and the number ends at the first
  // character that is no digit.
  lemma {:induction false} AtoiReads(space: string, sign: string, n: nat, rest: string)
    requires (forall c :: c in space ==> c in SPACES) && sign in ["", "+", "-"]
    requires rest == "" || !IsDigit(rest[0])
    ensures Atoi(space + (sign + (NatText(n) + rest))) == if sign == "-" then 0 - n else n
  {
    var number := NatText(n) + rest;
    DigitsValueStops(NatText(n), rest, 0);
    NatTextValue(n);
    assert NatText(n)[0] in NatText(n) && number[0] == NatText(n)[0];
    SignedValue(sign, number);
    AtoiSkipsSpace(space, sign + number);
  }

  lemma SignedValue(sign: string, rest: string)
    requires sign in ["", "+", "-"] && (sign == "" ==> rest == "" || (!IsSpace(rest[0]) && rest[0] !in "+-"))
    ensures Atoi(sign + rest) == if sign == "-" then 0 - DigitsValue(rest, 0) else DigitsValue(rest, 0)
  {
    var s := sign + rest;
    if sign == "" { assert s == rest; } else { assert s[0] == sign[0] && s[1..] == rest; }
  }

  // Without a digit there the number is 0.
  lemma {:induction false} AtoiOfNoDigit(space: string, sign: string, rest: string)
    requires (forall c :: c in space ==> c in SPACES) && sign in ["", "+", "-"]
    requires rest == "" || (!IsDigit(rest[0]) && (sign == "" ==> !IsSpace(rest[0]) && rest[0] !in "+-"))
    ensures Atoi(space + (sign + rest)) == 0
  {
    SignedValue(sign, rest);
    AtoiSkipsSpace(space, sign + rest);
  }

  lemma IntTextChars(n: int)
    ensures IntText(n) != "" && forall c :: c in IntText(n) ==> IsDigit(c) || c == '-'
  {
  }

  // ---------- pieces ----------

  // The pieces between separators; the last one is what follows the last separator.
  function Pieces(text: string, sep: char): (r: seq<string>)
    ensures |r| >= 1
    decreases |text|
  {
    if text == "" then [""]
    else
      var r := Pieces(text[1..], sep);
      if text[0] == sep then [""] + r else [[text[0]] + r[0]] + r[1..]
  }

  // `tmp` is the part of the current piece that was already read.
  function PiecesFrom(tmp: string, text: string, sep: char): (r: seq<string>)
    ensures |r| >= 1
  {
    var p := Pieces(text, sep);
    [tmp + p[0]] + p[1..]
  }

  function NonEmpty(ps: seq<string>): seq<string> {
    if ps == [] then [] else (if ps[0] == "" then [] else [ps[0]]) + NonEmpty(ps[1..])
  }

  // The nonempty pieces that a separator ends, as every parser collects them.
  function Closed(text: string, sep: char): seq<string> {
    var p := Pieces(text, sep);
    NonEmpty(p[..|p| - 1])
  }

  function Tail(text: string, sep: char): string {
    var p := Pieces(text, sep);
    p[|p| - 1]
  }

  function ClosedFrom(tmp: string, text: string, sep: char): seq<string> {
    var p := PiecesFrom(tmp, text, sep);
    NonEmpty(p[..|p| - 1])
  }

  function TailFrom(tmp: string, text: string, sep: char): string {
    var p := PiecesFrom(tmp, text, sep);
    p[|p| - 1]
  }

  // The token loop: `tokens` gets each nonempty piece at its separator, `rest` is what is left.
  method Tokenize(text: string, sep: char) returns (tokens: seq<string>, rest: string)
    ensures tokens == Closed(text, sep)
    ensures rest == Tail(text, sep)
  {
    tokens, rest := [], "";
    PiecesFromNothing(text, sep);
    var i := 0;
    while i < |text|
      invariant 0 <= i <= |text|
      invariant Closed(text, sep) == tokens + ClosedFrom(rest, text[i..], sep)
      invariant Tail(text, sep) == TailFrom(rest, text[i..], sep)
    {
      LoopStep(rest, text[i..], sep);
      assert text[i..][1..] == text[i + 1..];
      if text[i] != sep {
        rest := rest + [text[i]];
      } else {
        PushStep(tokens, rest, ClosedFrom("", text[i + 1..], sep));
        if |rest| != 0 { tokens := tokens + [rest]; }
        rest := "";
      }
      i := i + 1;
    }
    LoopEnd(rest, sep);
  }

  lemma PushStep(tokens: seq<string>, tmp: string, more: seq<string>)
    ensures tokens + ((if tmp == "" then [] else [tmp]) + more) == (if tmp == "" then tokens else tokens + [tmp]) + more
  {
    if tmp == "" { assert [] + more == more; }
  }

  lemma LoopEnd(tmp: string, sep: char)
    ensures ClosedFrom(tmp, "", sep) == [] && TailFrom(tmp, "", sep) == tmp
  {
    assert PiecesFrom(tmp, "", sep) == [tmp + ""];
    assert tmp + "" == tmp;
  }

  lemma LoopStep(tmp: string, text: string, sep: char)
    requires text != ""
    ensures ClosedFrom(tmp, text, sep) ==
      if text[0] == sep then (if tmp == "" then [] else [tmp]) + ClosedFrom("", text[1..], sep)
      else ClosedFrom(tmp + [text[0]], text[1..], sep)
    ensures TailFrom(tmp, text, sep) ==
      if text[0] == sep then TailFrom("", text[1..], sep) else TailFrom(tmp + [text[0]], text[1..], sep)
  {
    PiecesFromStep(tmp, text, sep);
    NonEmptyCons(tmp, PiecesFrom("", text[1..], sep));
  }

  lemma PiecesFromNothing(text: string, sep: char)
    ensures PiecesFrom("", text, sep) == Pieces(text, sep)
  {
    assert "" + Pieces(text, sep)[0] == Pieces(text, sep)[0];
  }

  lemma PiecesFromStep(tmp: string, text: string, sep: char)
    requires text != ""
    ensures PiecesFrom(tmp, text, sep) ==
      if text[0] == sep then [tmp] + PiecesFrom("", text[1..], sep) else PiecesFrom(tmp + [text[0]], text[1..], sep)
  {
    var r := Pieces(text[1..], sep);
    if text[0] == sep {
      PiecesFromNothing(text[1..], sep);
      assert tmp + "" == tmp;
    } else {
      assert tmp + ([text[0]] + r[0]) == tmp + [text[0]] + r[0];
    }
  }

  lemma NonEmptyCons(x: string, ps: seq<string>)
    requires |ps| >= 1
    ensures var all := [x] + ps;
            NonEmpty(all[..|all| - 1]) == (if x == "" then [] else [x]) + NonEmpty(ps[..|ps| - 1])
  {
    var all := [x] + ps;
    assert all[..|all| - 1] == [x] + ps[..|ps| - 1];
    assert all[..|all| - 1][1..] == ps[..|ps| - 1];
  }

  // No piece holds the separator.
  lemma {:induction false} PiecesFree(text: string, sep: char)
    ensures forall p :: p in Pieces(text, sep) ==> sep !in p
    ensures forall p, c :: p in Pieces(text, sep) && c in p ==> c in text
    decreases |text|
  {
    if text != "" {
      PiecesFree(text[1..], sep);
      var r := Pieces(text[1..], sep);
      forall p | p in Pieces(text, sep) ensures sep !in p && forall c :: c in p ==> c in text {
        assert p == "" || p in r || p == [text[0]] + r[0];
        assert r[0] in r;
      }
    }
  }

  lemma {:induction false} NonEmptySubset(ps: seq<string>)
    ensures forall p :: p in NonEmpty(ps) ==> p != "" && p in ps
  {
    if ps != [] { NonEmptySubset(ps[1..]); }
  }

  // A collected token is nonempty, holds no separator, and uses only characters of the text.
  lemma ClosedFree(text: string, sep: char)
    ensures forall p :: p in Closed(text, sep) ==> p != "" && sep !in p && forall c :: c in p ==> c in text
    ensures sep !in Tail(text, sep) && forall c :: c in Tail(text, sep) ==> c in text
  {
    var ps := Pieces(text, sep);
    PiecesFree(text, sep);
    NonEmptySubset(ps[..|ps| - 1]);
    assert Tail(text, sep) in ps;
  }

  // A first piece without separators comes off whole.
  lemma {:induction false} PiecesOfFirst(first: string, rest: string, sep: char)
    requires sep !in first
    ensures Pieces(first + [sep] + rest, sep) == [first] + Pieces(rest, sep)
    decreases |first|
  {
    var text := first + [sep] + rest;
    if first == "" {
      assert text[1..] == rest;
    } else {
      assert text[1..] == first[1..] + [sep] + rest;
      PiecesOfFirst(first[1..], rest, sep);
      assert [first[0]] + first[1..] == first;
    }
  }

  lemma {:induction false} PiecesOfOne(text: string, sep: char)
    requires sep !in text
    ensures Pieces(text, sep) == [text]
    decreases |text|
  {
    if text != "" {
      PiecesOfOne(text[1..], sep);
      assert [text[0]] + text[1..] == text;
    }
  }

  lemma ClosedOfFirst(first: string, rest: string, sep: char)
    requires sep !in first
    ensures Closed(first + [sep] + rest, sep) == (if first == "" then [] else [first]) + Closed(rest, sep)
    ensures Tail(first + [sep] + rest, sep) == Tail(rest, sep)
  {
    PiecesOfFirst(first, rest, sep);
    NonEmptyCons(first, Pieces(rest, sep));
  }

  lemma ClosedOfOne(text: string, sep: char)
    requires sep !in text
    ensures Closed(text, sep) == [] && Tail(text, sep) == text
  {
    PiecesOfOne(text, sep);
  }

  lemma {:induction false} NonEmptyConcat(a: seq<string>, b: seq<string>)
    ensures NonEmpty(a + b) == NonEmpty(a) + NonEmpty(b)
  {
    if a == [] {
      assert a + b == b;
    } else {
      assert (a + b)[1..] == a[1..] + b;
      NonEmptyConcat(a[1..], b);
    }
  }

  // A separator between two texts puts their pieces side by side.
  lemma {:induction false} PiecesOfBoth(a: string, b: string, sep: char)
    ensures Pieces(a + [sep] + b, sep) == Pieces(a, sep) + Pieces(b, sep)
    decreases |a|
  {
    var text := a + [sep] + b;
    if a == "" {
      assert text[1..] == b;
    } else {
      assert text[1..] == a[1..] + [sep] + b;
      PiecesOfBoth(a[1..], b, sep);
    }
  }

  lemma ClosedAndTail(text: string, sep: char)
    ensures NonEmpty(Pieces(text, sep)) == Closed(text, sep) + if Tail(text, sep) == "" then [] else [Tail(text, sep)]
  {
    var p := Pieces(text, sep);
    assert p == p[..|p| - 1] + [p[|p| - 1]];
    NonEmptyConcat(p[..|p| - 1], [p[|p| - 1]]);
  }

  // A token needs its separator.
  lemma {:induction false} ClosedAtMost(text: string, sep: char)
    ensures |Pieces(text, sep)| == 1 + multiset(text)[sep]
    ensures |Closed(text, sep)| <= multiset(text)[sep]
    decreases |text|
  {
    if text != "" {
      assert text == [text[0]] + text[1..];
      ClosedAtMost(text[1..], sep);
    }
    NonEmptyShorter(Pieces(text, sep)[..|Pieces(text, sep)| - 1]);
  }

  lemma {:induction false} NonEmptyShorter(ps: seq<string>)
    ensures |NonEmpty(ps)| <= |ps|
  {
    if ps != [] { NonEmptyShorter(ps[1..]); }
  }
}
