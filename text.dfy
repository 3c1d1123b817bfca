/**
 * String helpers that stand for the Python string operations the bot relies on:
 * `str.startswith`, `str.split`, `int(...)`, f-string rendering of integers and
 * of `None`, command recognition and `+=` concatenation of message lines.
 */
module Text {
  import opened Wrappers

  predicate StartsWith(s: string, prefix: string) {
    |prefix| <= |s| && s[..|prefix|] == prefix
  }

  /**
   * aiogram's `Command(commands=name)` filter: the message is the command word
   * `/name`, alone or followed by arguments after a space or a line break.
   */
  predicate IsCommand(text: string, name: string) {
    var word := "/" + name;
    text == word || StartsWith(text, word + " ") || StartsWith(text, word + "\n")
  }

  /** A command message starts with the slash and the command's first letter. */
  lemma CommandFirstLetter(text: string, name: string)
    requires |name| > 0 && IsCommand(text, name)
    ensures |text| >= 2 && text[0] == '/' && text[1] == name[0]
  {
    var word := "/" + name;
    assert word[1] == name[0];
    if text != word {
      assert text[..|word|] == word[..] by {
        if StartsWith(text, word + " ") { assert (word + " ")[..|word|] == word; }
        else { assert (word + "\n")[..|word|] == word; }
      }
      assert text[1] == text[..|word|][1];
    }
  }

  /** How an f-string renders a nullable text column: `None` becomes "None". */
  function PyStr(v: Option<string>): string {
    match v
    case None => "None"
    case Some(s) => s
  }

  // ---------------------------------------------------------------------------
  // Decimal numerals: f"{n}" and int(s)
  // ---------------------------------------------------------------------------

  predicate IsDigit(c: char) {
    '0' as int <= c as int <= '9' as int
  }

  predicate AllDigits(s: string) {
    |s| > 0 && forall i :: 0 <= i < |s| ==> IsDigit(s[i])
  }

  function DigitChar(d: nat): (c: char)
    requires d < 10
    ensures IsDigit(c) && c as int - '0' as int == d
  {
    ('0' as int + d) as char
  }

  /** f"{n}" for a non-negative integer: its decimal digits, most significant first. */
  function Decimal(n: nat): (r: string)
    ensures AllDigits(r)
    ensures n >= 10 ==> r[0] != '0'
  {
    if n < 10 then [DigitChar(n)] else Decimal(n / 10) + [DigitChar(n % 10)]
  }

  /** The value of a string of decimal digits. */
  function DigitsValue(s: string): nat
    requires forall i :: 0 <= i < |s| ==> IsDigit(s[i])
  {
    if |s| == 0 then 0
    else
      assert IsDigit(s[|s| - 1]);
      DigitsValue(s[..|s| - 1]) * 10 + (s[|s| - 1] as int - '0' as int)
  }

  /**
   * Python's `int(s)` on a string: an optional `+` or `-` sign followed by at
   * least one decimal digit; anything else raises ValueError (here: None).
   */
  function ParseInt(s: string): Option<int> {
    if |s| > 0 && (s[0] == '+' || s[0] == '-') then
      if AllDigits(s[1..]) then
        var magnitude: int := DigitsValue(s[1..]);
        Some(if s[0] == '-' then -magnitude else magnitude)
      else None
    else if AllDigits(s) then Some(DigitsValue(s))
    else None
  }

  lemma {:induction false} DigitsValueOfDecimal(n: nat)
    ensures DigitsValue(Decimal(n)) == n
    decreases n
  {
    var r := Decimal(n);
    if n >= 10 {
      DigitsValueOfDecimal(n / 10);
      assert r[..|r| - 1] == Decimal(n / 10);
    }
  }

  /** int(f"{n}") == n: printing a non-negative integer and parsing it back is the identity. */
  lemma DecimalRoundTrip(n: nat)
    ensures ParseInt(Decimal(n)) == Some(n)
  {
    DigitsValueOfDecimal(n);
  }

  /** A character that is not a digit never occurs in a decimal numeral. */
  lemma NonDigitNotInDecimal(n: nat, c: char)
    requires !IsDigit(c)
    ensures c !in Decimal(n)
  {
  }

  /** Python's int() rejects every string that has no digit in it. */
  lemma ParseIntNeedsDigit(s: string)
    requires forall i :: 0 <= i < |s| ==> !IsDigit(s[i])
    ensures ParseInt(s) == None
  {
    if |s| > 0 && (s[0] == '+' || s[0] == '-') && |s| > 1 {
      assert !IsDigit(s[1..][0]);
    } else if |s| > 0 {
      assert !IsDigit(s[0]);
    }
  }

  // ---------------------------------------------------------------------------
  // str.split(sep) with a one-character separator
  // ---------------------------------------------------------------------------

  /** The pieces joined back with the separator between them. */
  function Join(pieces: seq<string>, sep: char): string
    requires |pieces| >= 1
  {
    if |pieces| == 1 then pieces[0] else pieces[0] + [sep] + Join(pieces[1..], sep)
  }

  /**
   * Python's `s.split(sep)`: the maximal separator-free pieces, so that joining
   * them with the separator gives `s` back. The result is never empty.
   */
  function Split(s: string, sep: char): (r: seq<string>)
    ensures |r| >= 1
    ensures forall k :: 0 <= k < |r| ==> sep !in r[k]
    ensures Join(r, sep) == s
    decreases |s|
  {
    if |s| == 0 then [""]
    else
      var rest := Split(s[1..], sep);
      if s[0] == sep then [""] + rest
      else
        assert [s[0]] + rest[0] + Join(rest, sep)[|rest[0]|..] == s by {
          if |rest| == 1 { } else { assert Join(rest, sep) == rest[0] + [sep] + Join(rest[1..], sep); }
        }
        [[s[0]] + rest[0]] + rest[1..]
  }

  /** A string without the separator splits into itself alone. */
  lemma {:induction false} SplitWithoutSeparator(s: string, sep: char)
    requires sep !in s
    ensures Split(s, sep) == [s]
    decreases |s|
  {
    if |s| > 0 {
      SplitWithoutSeparator(s[1..], sep);
    }
  }

  /** A separator-free head, the separator, then a tail: the head is the first piece. */
  lemma {:induction false} SplitAtSeparator(head: string, sep: char, tail: string)
    requires sep !in head
    ensures Split(head + [sep] + tail, sep) == [head] + Split(tail, sep)
    decreases |head|
  {
    var s := head + [sep] + tail;
    if |head| == 0 {
      assert s[1..] == tail;
    } else {
      assert s[1..] == head[1..] + [sep] + tail;
      SplitAtSeparator(head[1..], sep, tail);
      assert [s[0]] + head[1..] == head;
    }
  }

  // ---------------------------------------------------------------------------
  // message_text += line
  // ---------------------------------------------------------------------------

  /** The lines concatenated in order, as a `+=` loop builds them. */
  function Concat(lines: seq<string>): string {
    if |lines| == 0 then "" else Concat(lines[..|lines| - 1]) + lines[|lines| - 1]
  }

  /** One more `text += line` extends a header-plus-lines listing by the next line. */
  lemma ListingSnoc(header: string, lines: seq<string>, i: nat)
    requires i < |lines|
    ensures header + Concat(lines[..i + 1]) == (header + Concat(lines[..i])) + lines[i]
  {
    assert lines[..i + 1][..i] == lines[..i];
  }

  /** A listing is complete once every line has been appended. */
  lemma ListingDone(header: string, lines: seq<string>)
    ensures header + Concat(lines[..|lines|]) == header + Concat(lines)
  {
    assert lines[..|lines|] == lines;
  }

  lemma {:induction false} ConcatAppend(a: seq<string>, b: seq<string>)
    ensures Concat(a + b) == Concat(a) + Concat(b)
    decreases |b|
  {
    if |b| == 0 {
      assert a + b == a;
    } else {
      var ab := a + b;
      assert ab[..|ab| - 1] == a + b[..|b| - 1];
      ConcatAppend(a, b[..|b| - 1]);
    }
  }

  /**
   * Every line of a header-plus-lines listing occurs verbatim, right after the
   * header and all the lines before it: the listing keeps its lines whole and
   * in their order.
   */
  lemma ListingAt(header: string, lines: seq<string>, k: nat)
    requires k < |lines|
    ensures var start := |header| + |Concat(lines[..k])|;
      start + |lines[k]| <= |header + Concat(lines)| &&
      (header + Concat(lines))[start..start + |lines[k]|] == lines[k]
    ensures k + 1 < |lines| ==> |Concat(lines[..k + 1])| == |Concat(lines[..k])| + |lines[k]|
  {
    assert lines == lines[..k] + [lines[k]] + lines[k + 1..];
    ConcatAppend(lines[..k] + [lines[k]], lines[k + 1..]);
    ConcatAppend(lines[..k], [lines[k]]);
    assert Concat([lines[k]]) == lines[k] by {
      assert [lines[k]][..0] == [];
    }
    assert lines[..k + 1] == lines[..k] + [lines[k]];
  }

  /** A value framed as `pre + v + post` sits right after `pre`. */
  lemma FramedValue(s: string, start: nat, pre: string, v: string, post: string)
    requires start + |pre + v + post| <= |s| && s[start..start + |pre + v + post|] == pre + v + post
    ensures s[start + |pre|..start + |pre| + |v|] == v
  {
    var line := pre + v + post;
    forall i | 0 <= i < |v|
      ensures s[start + |pre| + i] == v[i]
    {
      assert s[start..start + |line|][|pre| + i] == line[|pre| + i];
    }
  }
}
