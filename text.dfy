/**
 * The string operations the report relies on, in an ASCII model:
 * Python's str.title() and str.replace("_", " ") for parameter labels,
 * str(int) and int(str) for technology line counts, and ", ".join for the
 * technology breakdown, together with the splitting that reads it back.
 */
module Text {
  import opened Outcomes

  predicate IsDigit(c: char) { '0' <= c <= '9' }
  predicate IsUpper(c: char) { 'A' <= c <= 'Z' }
  predicate IsLower(c: char) { 'a' <= c <= 'z' }

  /** A cased character: the only kind str.title() changes. */
  predicate IsLetter(c: char) { IsUpper(c) || IsLower(c) }

  function ToUpper(c: char): char
  {
    if IsLower(c) then (c as int - 32) as char else c
  }

  function ToLower(c: char): char
  {
    if IsUpper(c) then (c as int + 32) as char else c
  }

  /** Changing case keeps letters letters and other characters as they are, and is idempotent. */
  lemma {:induction false} CaseChange(c: char)
    ensures IsLetter(ToUpper(c)) == IsLetter(c) && IsLetter(ToLower(c)) == IsLetter(c)
    ensures !IsLetter(c) ==> ToUpper(c) == c && ToLower(c) == c
    ensures ToUpper(ToUpper(c)) == ToUpper(c) && ToLower(ToLower(c)) == ToLower(c)
    ensures IsLetter(c) ==> IsUpper(ToUpper(c)) && IsLower(ToLower(c))
  {
  }

  // ---------------------------------------------------------------- title case

  /** How str.title() rewrites one character, given whether the previous one was cased. */
  function TitleChar(c: char, afterLetter: bool): char
  {
    if !IsLetter(c) then c else if afterLetter then ToLower(c) else ToUpper(c)
  }

  /** str.title() as a left-to-right scan that remembers whether the last character was cased. */
  function TitleFrom(s: string, afterLetter: bool): string
  {
    if s == [] then [] else [TitleChar(s[0], afterLetter)] + TitleFrom(s[1..], IsLetter(s[0]))
  }

  function Title(s: string): string
  {
    TitleFrom(s, false)
  }

  lemma {:induction false} TitleFromAt(s: string, afterLetter: bool)
    ensures |TitleFrom(s, afterLetter)| == |s|
    ensures forall i :: 0 <= i < |s| ==>
      TitleFrom(s, afterLetter)[i] == TitleChar(s[i], if i == 0 then afterLetter else IsLetter(s[i - 1]))
  {
    if s != [] {
      TitleFromAt(s[1..], IsLetter(s[0]));
    }
  }

  /**
   * Position-wise reading of title case, independent of the scan: a letter
   * is upper-cased when it starts a word (nothing cased right before it)
   * and lower-cased otherwise; every other character is kept.
   */
  function TitleCaseAt(s: string, i: nat): char
    requires i < |s|
  {
    if !IsLetter(s[i]) then s[i]
    else if i > 0 && IsLetter(s[i - 1]) then ToLower(s[i])
    else ToUpper(s[i])
  }

  lemma {:induction false} TitleAt(s: string)
    ensures |Title(s)| == |s|
    ensures forall i :: 0 <= i < |s| ==> Title(s)[i] == TitleCaseAt(s, i)
  {
    TitleFromAt(s, false);
    forall i | 0 <= i < |s|
      ensures Title(s)[i] == TitleCaseAt(s, i)
    {
      assert Title(s)[i] == TitleFrom(s, false)[i];
      assert TitleFrom(s, false)[i] == TitleChar(s[i], if i == 0 then false else IsLetter(s[i - 1]));
    }
  }

  /** Title-casing a title-cased string changes nothing. */
  lemma {:induction false} TitleIdempotent(s: string)
    ensures Title(Title(s)) == Title(s)
  {
    var t := Title(s);
    TitleAt(s);
    TitleAt(t);
    forall i | 0 <= i < |s|
      ensures Title(t)[i] == t[i]
    {
      CaseChange(s[i]);
      assert t[i] == TitleCaseAt(s, i);
      assert IsLetter(t[i]) == IsLetter(s[i]);
      CaseChange(t[i]);
      if i > 0 {
        CaseChange(s[i - 1]);
        assert t[i - 1] == TitleCaseAt(s, i - 1);
        assert IsLetter(t[i - 1]) == IsLetter(s[i - 1]);
      }
      assert Title(t)[i] == TitleCaseAt(t, i);
    }
  }

  // ---------------------------------------------------------------- key labels

  /** str.replace("_", " "). */
  function ReplaceUnderscores(s: string): (r: string)
    ensures |r| == |s|
    ensures forall i :: 0 <= i < |s| ==> r[i] == (if s[i] == '_' then ' ' else s[i])
  {
    if s == [] then [] else [if s[0] == '_' then ' ' else s[0]] + ReplaceUnderscores(s[1..])
  }

  /** The "Parameters" cell of a report row: key.replace("_", " ").title(). */
  function Label(key: string): string
  {
    Title(ReplaceUnderscores(key))
  }

  /**
   * A label keeps the key's length, contains no underscore, and each
   * letter is upper-case exactly when it starts a word of the key.
   */
  lemma {:induction false} LabelAt(key: string)
    ensures |Label(key)| == |key|
    ensures forall i :: 0 <= i < |key| ==> Label(key)[i] != '_'
    ensures forall i :: 0 <= i < |key| && IsLetter(key[i]) ==>
      (IsUpper(Label(key)[i]) <==> (i == 0 || !IsLetter(key[i - 1])))
  {
    var r := ReplaceUnderscores(key);
    TitleAt(r);
    forall i | 0 <= i < |key|
      ensures Label(key)[i] != '_'
      ensures IsLetter(key[i]) ==> (IsUpper(Label(key)[i]) <==> (i == 0 || !IsLetter(key[i - 1])))
    {
      CaseChange(r[i]);
      if i > 0 {
        CaseChange(r[i - 1]);
      }
    }
  }

  // ---------------------------------------------------------------- decimal text

  function DigitChar(d: nat): (c: char)
    requires d < 10
    ensures IsDigit(c)
  {
    ('0' as int + d) as char
  }

  function DigitValue(c: char): nat
    requires IsDigit(c)
  {
    c as int - '0' as int
  }

  predicate AllDigits(s: string)
  {
    forall i :: 0 <= i < |s| ==> IsDigit(s[i])
  }

  /** str(n) for a non-negative integer. */
  function NatToString(n: nat): string
    decreases n
  {
    if n < 10 then [DigitChar(n)] else NatToString(n / 10) + [DigitChar(n % 10)]
  }

  /** str(n): a minus sign before the digits of |n| when n is negative. */
  function IntToString(n: int): string
  {
    if n < 0 then "-" + NatToString(-n) else NatToString(n)
  }

  /** The value of a string of decimal digits, most significant first. */
  function DigitsValue(s: string): nat
    requires AllDigits(s)
    decreases |s|
  {
    if s == [] then 0 else DigitsValue(s[..|s| - 1]) * 10 + DigitValue(s[|s| - 1])
  }

  /** int(s) on text: an optional sign followed by at least one decimal digit. */
  function ParseInt(s: string): Option<int>
  {
    if |s| > 0 && AllDigits(s) then Some(DigitsValue(s))
    else if |s| > 1 && (s[0] == '-' || s[0] == '+') && AllDigits(s[1..]) then
      var magnitude: int := DigitsValue(s[1..]);
      Some(if s[0] == '-' then -magnitude else magnitude)
    else None
  }

  lemma {:induction false} NatToStringDigits(n: nat)
    ensures |NatToString(n)| > 0 && AllDigits(NatToString(n))
    ensures DigitsValue(NatToString(n)) == n
    decreases n
  {
    var s := NatToString(n);
    if n >= 10 {
      NatToStringDigits(n / 10);
      assert s[..|s| - 1] == NatToString(n / 10);
    }
  }

  /** int(str(n)) == n: the decimal text of an integer reads back as that integer. */
  lemma {:induction false} IntToStringRoundTrip(n: int)
    ensures ParseInt(IntToString(n)) == Some(n)
  {
    if n < 0 {
      NatToStringDigits(-n);
      assert IntToString(n)[1..] == NatToString(-n);
    } else {
      NatToStringDigits(n);
    }
  }

  /**
   * str(n) is non-empty and ends in a digit; every character after the
   * first is a digit, and the first is a minus sign exactly when n < 0.
   */
  lemma {:induction false} IntToStringShape(n: int)
    ensures |IntToString(n)| > 0
    ensures IsDigit(IntToString(n)[|IntToString(n)| - 1])
    ensures forall i :: 0 < i < |IntToString(n)| ==> IsDigit(IntToString(n)[i])
    ensures IntToString(n)[0] == '-' <==> n < 0
    ensures n >= 0 ==> IsDigit(IntToString(n)[0])
  {
    if n < 0 {
      NatToStringDigits(-n);
      var s := IntToString(n);
      assert forall i :: 1 <= i < |s| ==> s[i] == NatToString(-n)[i - 1];
    } else {
      NatToStringDigits(n);
    }
  }

  // ---------------------------------------------------------------- ", " join and split

  /** The separator of the technology breakdown. */
  const Separator: string := ", "

  /** True when s holds no occurrence of the separator. */
  predicate NoSeparator(s: string)
  {
    forall i :: 0 <= i < |s| - 1 ==> !(s[i] == ',' && s[i + 1] == ' ')
  }

  /** ", ".join(parts). */
  function Join(parts: seq<string>): string
  {
    if parts == [] then ""
    else if |parts| == 1 then parts[0]
    else parts[0] + Separator + Join(parts[1..])
  }

  /** s.split(", ") with `current` the part read so far. */
  function SplitFrom(s: string, current: string): seq<string>
    decreases |s|
  {
    if s == [] then [current]
    else if |s| >= 2 && s[0] == ',' && s[1] == ' ' then [current] + SplitFrom(s[2..], "")
    else SplitFrom(s[1..], current + [s[0]])
  }

  /** s.split(", "). */
  function Split(s: string): seq<string>
  {
    SplitFrom(s, "")
  }

  /** A part the splitter reads back whole: no separator inside, no trailing comma. */
  predicate SplitsCleanly(p: string)
  {
    NoSeparator(p) && (p == [] || p[|p| - 1] != ',')
  }

  lemma {:induction false} ScanPart(p: string, rest: string, current: string)
    requires SplitsCleanly(p)
    ensures SplitFrom(p + rest, current) == SplitFrom(rest, current + p)
    decreases |p|
  {
    if p == [] {
      assert p + rest == rest;
      assert current + p == current;
    } else {
      var s := p + rest;
      assert s[0] == p[0];
      assert !(|s| >= 2 && s[0] == ',' && s[1] == ' ') by {
        if |p| >= 2 {
          assert s[1] == p[1];
        }
      }
      assert SplitFrom(s, current) == SplitFrom(s[1..], current + [p[0]]);
      assert s[1..] == p[1..] + rest;
      assert (current + [p[0]]) + p[1..] == current + p;
      ScanPart(p[1..], rest, current + [p[0]]);
    }
  }

  /** Splitting a joined breakdown on ", " gives back its parts, in order. */
  lemma {:induction false} SplitJoin(parts: seq<string>)
    requires |parts| > 0
    requires forall k :: 0 <= k < |parts| ==> SplitsCleanly(parts[k])
    ensures Split(Join(parts)) == parts
  {
    if |parts| == 1 {
      ScanPart(parts[0], "", "");
      assert parts[0] + "" == parts[0];
      assert "" + parts[0] == parts[0];
      assert SplitFrom("", parts[0]) == [parts[0]];
    } else {
      var rest := Join(parts[1..]);
      var tail := Separator + rest;
      assert Join(parts) == parts[0] + tail;
      ScanPart(parts[0], tail, "");
      assert "" + parts[0] == parts[0];
      assert tail[0] == ',' && tail[1] == ' ' && tail[2..] == rest;
      assert SplitFrom(tail, parts[0]) == [parts[0]] + SplitFrom(rest, "");
      SplitJoin(parts[1..]);
      assert parts == [parts[0]] + parts[1..];
    }
  }
}
