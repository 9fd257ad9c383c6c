/**
  `parseBRL`: catalogue price text such as "R$ 1.234,56" is normalised to
  "1234.56" and handed to `Number`.  The normalisation is one regular
  expression pass removing every whitespace character or "R$", a global
  removal of ".", a replacement of the FIRST "," by "." and a `trim`.
  `Number` itself reaches the model as a parameter that yields the value in
  cents, or nothing when the result would not be finite.
*/
module Brl {
  import opened Common

  /** JavaScript's `\s` class, which is also the set `String.prototype.trim` strips. */
  predicate IsJsSpace(c: char) {
    var n := c as int;
    n == 0x09 || n == 0x0A || n == 0x0B || n == 0x0C || n == 0x0D || n == 0x20 ||
    n == 0xA0 || n == 0x1680 || (0x2000 <= n <= 0x200A) || n == 0x2028 || n == 0x2029 ||
    n == 0x202F || n == 0x205F || n == 0x3000 || n == 0xFEFF
  }

  predicate NoSpace(s: string) {
    forall i :: 0 <= i < |s| ==> !IsJsSpace(s[i])
  }

  function Count(s: string, c: char): nat {
    if |s| == 0 then 0 else (if s[0] == c then 1 else 0) + Count(s[1..], c)
  }

  /**
    `.replace(/\s|R\$/g, '')`: a left-to-right scan that drops, at each
    position, one whitespace character or else the two characters "R$".
  */
  function StripSpacesAndSymbol(s: string): (r: string)
    ensures NoSpace(r) && |r| <= |s|
  {
    if |s| == 0 then ""
    else if IsJsSpace(s[0]) then StripSpacesAndSymbol(s[1..])
    else if |s| >= 2 && s[0] == 'R' && s[1] == '$' then StripSpacesAndSymbol(s[2..])
    else [s[0]] + StripSpacesAndSymbol(s[1..])
  }

  /** `.replace(/\./g, '')`. */
  function RemoveDots(s: string): (r: string)
    ensures |r| <= |s|
  {
    if |s| == 0 then ""
    else if s[0] == '.' then RemoveDots(s[1..])
    else [s[0]] + RemoveDots(s[1..])
  }

  /** `.replace(',', '.')`: a string pattern, so only the first comma. */
  function ReplaceFirstComma(s: string): (r: string)
    ensures |r| == |s|
  {
    if |s| == 0 then ""
    else if s[0] == ',' then "." + s[1..]
    else [s[0]] + ReplaceFirstComma(s[1..])
  }

  function TrimStart(s: string): string {
    if |s| > 0 && IsJsSpace(s[0]) then TrimStart(s[1..]) else s
  }

  function TrimEnd(s: string): string {
    if |s| > 0 && IsJsSpace(s[|s| - 1]) then TrimEnd(s[..|s| - 1]) else s
  }

  /** `.trim()`. */
  function Trim(s: string): string {
    TrimEnd(TrimStart(s))
  }

  /** The text `parseBRL` hands to `Number`. */
  function Normalise(str: string): string {
    Trim(ReplaceFirstComma(RemoveDots(StripSpacesAndSymbol(str))))
  }

  /**
    `parseBRL`: `toNumber` stands for `Number` followed by `isFinite`, in
    cents; a text that does not parse to a finite number yields 0.
  */
  function ParseBRL(str: string, toNumber: string -> Option<int>): (v: int)
    ensures toNumber(Normalise(str)).None? ==> v == 0
    ensures toNumber(Normalise(str)).Some? ==> v == toNumber(Normalise(str)).value
  {
    match toNumber(Normalise(str))
    case Some(n) => n
    case None => 0
  }

  // ---------------------------------------------------------------------

  /** Removing the dots leaves no dot, every comma, and no new whitespace. */
  lemma {:induction false} RemoveDotsCounts(s: string)
    ensures Count(RemoveDots(s), '.') == 0 && Count(RemoveDots(s), ',') == Count(s, ',')
    ensures NoSpace(s) ==> NoSpace(RemoveDots(s))
  {
    if |s| > 0 {
      RemoveDotsCounts(s[1..]);
      if s[0] != '.' {
        var t := RemoveDots(s[1..]);
        assert ([s[0]] + t)[1..] == t;
      }
    }
  }

  /** Replacing the first comma turns exactly one comma into a point, if there is one. */
  lemma {:induction false} ReplaceFirstCommaCounts(s: string)
    ensures Count(s, ',') == 0 ==> ReplaceFirstComma(s) == s
    ensures Count(s, ',') > 0 ==>
      Count(ReplaceFirstComma(s), '.') == Count(s, '.') + 1 &&
      Count(ReplaceFirstComma(s), ',') == Count(s, ',') - 1
    ensures NoSpace(s) ==> NoSpace(ReplaceFirstComma(s))
    ensures Count(s, ',') > 0 ==>
      exists i :: 0 <= i < |s| && s[i] == ',' && Count(s[..i], ',') == 0 &&
                  ReplaceFirstComma(s) == s[..i] + "." + s[i + 1..]
  {
    if |s| > 0 {
      if s[0] == ',' {
        assert ("." + s[1..])[1..] == s[1..];
      } else {
        ReplaceFirstCommaCounts(s[1..]);
        var t := ReplaceFirstComma(s[1..]);
        assert ([s[0]] + t)[1..] == t;
        assert Count(s[1..], ',') == 0 ==> s == [s[0]] + s[1..];
      }
      if Count(s, ',') > 0 {
        ReplaceFirstCommaAt(s);
      }
    }
  }

  /** The comma replaced is the first one, and every other character stays in place. */
  lemma ReplaceFirstCommaAt(s: string)
    requires Count(s, ',') > 0
    ensures exists i :: 0 <= i < |s| && s[i] == ',' && Count(s[..i], ',') == 0 &&
                        ReplaceFirstComma(s) == s[..i] + "." + s[i + 1..]
  {
    var i := FirstComma(s);
    var head, rest := s[..i], s[i..];
    assert s == head + rest;
    ReplaceFirstCommaAfter(head, rest);
    assert rest[1..] == s[i + 1..];
    assert ReplaceFirstComma(rest) == "." + s[i + 1..];
    assert head + ("." + s[i + 1..]) == head + "." + s[i + 1..];
    assert ReplaceFirstComma(s) == head + "." + s[i + 1..];
  }

  /** Where a text that holds a comma has its first one. */
  lemma {:induction false} FirstComma(s: string) returns (i: nat)
    requires Count(s, ',') > 0
    ensures i < |s| && s[i] == ',' && Count(s[..i], ',') == 0
  {
    if s[0] == ',' {
      i := 0;
    } else {
      var j := FirstComma(s[1..]);
      i := j + 1;
      assert s[..i][1..] == s[1..][..j];
    }
  }

  lemma TrimNoSpace(s: string)
    requires NoSpace(s)
    ensures Trim(s) == s
  {
  }

  /**
    The normalised text holds no whitespace and at most one "."; it holds a
    "." exactly when the stripped text held a ",", and one "," fewer.
  */
  lemma NormaliseShape(str: string)
    ensures NoSpace(Normalise(str))
    ensures Count(Normalise(str), '.') <= 1
    ensures var stripped := StripSpacesAndSymbol(str);
      (Count(Normalise(str), '.') == 1 <==> Count(stripped, ',') > 0) &&
      Count(Normalise(str), ',') == if Count(stripped, ',') > 0 then Count(stripped, ',') - 1 else 0
  {
    var stripped := StripSpacesAndSymbol(str);
    RemoveDotsCounts(stripped);
    ReplaceFirstCommaCounts(RemoveDots(stripped));
    TrimNoSpace(ReplaceFirstComma(RemoveDots(stripped)));
  }

  lemma {:induction false} StripPlain(s: string)
    requires NoSpace(s) && forall i :: 0 <= i < |s| ==> s[i] != 'R'
    ensures StripSpacesAndSymbol(s) == s
  {
    if |s| > 0 {
      StripPlain(s[1..]);
    }
  }

  lemma {:induction false} RemoveDotsConcat(a: string, b: string)
    ensures RemoveDots(a + b) == RemoveDots(a) + RemoveDots(b)
  {
    if |a| == 0 {
      assert a + b == b;
    } else {
      assert (a + b)[1..] == a[1..] + b;
      RemoveDotsConcat(a[1..], b);
    }
  }

  lemma {:induction false} RemoveDotsPlain(s: string)
    requires Count(s, '.') == 0
    ensures RemoveDots(s) == s
  {
    if |s| > 0 {
      RemoveDotsPlain(s[1..]);
    }
  }

  lemma {:induction false} ReplaceFirstCommaAfter(a: string, b: string)
    requires Count(a, ',') == 0
    ensures ReplaceFirstComma(a + b) == a + ReplaceFirstComma(b)
  {
    if |a| == 0 {
      assert a + b == b;
    } else {
      assert a[0] != ',' && Count(a[1..], ',') == 0;
      assert (a + b)[0] == a[0] && (a + b)[1..] == a[1..] + b;
      ReplaceFirstCommaAfter(a[1..], b);
      assert ReplaceFirstComma(a + b) == [a[0]] + ReplaceFirstComma(a[1..] + b);
      assert a == [a[0]] + a[1..];
    }
  }

  predicate IsDigit(c: char) { '0' <= c <= '9' }

  predicate PriceText(s: string) {
    forall i :: 0 <= i < |s| ==> IsDigit(s[i]) || s[i] == '.' || s[i] == ','
  }

  lemma StripCatalogPrefix(sep: char, tail: string)
    requires IsJsSpace(sep) && PriceText(tail)
    ensures StripSpacesAndSymbol("R$" + [sep] + tail) == tail
  {
    var str := "R$" + [sep] + tail;
    assert str[2..] == [sep] + tail;
    assert ([sep] + tail)[1..] == tail;
    StripPlain(tail);
  }

  lemma RemoveThousandsDots(whole: string, cents: string)
    requires forall i :: 0 <= i < |cents| ==> IsDigit(cents[i])
    ensures RemoveDots(whole + "," + cents) == RemoveDots(whole) + "," + cents
  {
    assert whole + "," + cents == whole + ("," + cents);
    RemoveDotsConcat(whole, "," + cents);
    assert ("," + cents)[1..] == cents;
    CountNone(cents, '.');
    RemoveDotsPlain(cents);
  }

  lemma ReplaceDecimalComma(w: string, cents: string)
    requires Count(w, ',') == 0
    ensures ReplaceFirstComma(w + "," + cents) == w + "." + cents
  {
    assert w + "," + cents == w + ("," + cents);
    ReplaceFirstCommaAfter(w, "," + cents);
    assert ("," + cents)[1..] == cents;
    assert w + ("." + cents) == w + "." + cents;
  }

  /**
    Catalogue prices "R$ <digits and thousands dots>,<cents>" normalise to
    "<digits>.<cents>": the symbol, the space and the thousands dots go and
    the decimal comma becomes a point.  The separator after "R$" may be any
    whitespace character, such as the U+00A0 that pt-BR `toLocaleString` writes.
  */
  lemma NormaliseCatalogPrice(sep: char, whole: string, cents: string)
    requires IsJsSpace(sep)
    requires forall i :: 0 <= i < |whole| ==> IsDigit(whole[i]) || whole[i] == '.'
    requires forall i :: 0 <= i < |cents| ==> IsDigit(cents[i])
    ensures Normalise("R$" + [sep] + (whole + "," + cents)) == RemoveDots(whole) + "." + cents
  {
    var tail := whole + "," + cents;
    PriceTextOf(whole, cents);
    StripCatalogPrefix(sep, tail);
    RemoveThousandsDots(whole, cents);
    var w := RemoveDots(whole);
    CountNone(whole, ',');
    RemoveDotsCounts(whole);
    ReplaceDecimalComma(w, cents);
    var r := w + "." + cents;
    PriceTextNoSpace(whole);
    PriceNoSpace(w, cents);
    TrimNoSpace(r);
    assert RemoveDots(tail) == w + "," + cents;
    assert ReplaceFirstComma(w + "," + cents) == r;
  }

  lemma PriceTextOf(whole: string, cents: string)
    requires forall i :: 0 <= i < |whole| ==> IsDigit(whole[i]) || whole[i] == '.'
    requires forall i :: 0 <= i < |cents| ==> IsDigit(cents[i])
    ensures PriceText(whole + "," + cents)
  {
    var tail := whole + "," + cents;
    forall i | 0 <= i < |tail| ensures IsDigit(tail[i]) || tail[i] == '.' || tail[i] == ',' {
      if i < |whole| { assert tail[i] == whole[i]; }
      else if i > |whole| { assert tail[i] == cents[i - |whole| - 1]; }
    }
  }

  lemma PriceTextNoSpace(s: string)
    requires PriceText(s)
    ensures NoSpace(s)
  {
    forall i | 0 <= i < |s| ensures !IsJsSpace(s[i]) {
      var n := s[i] as int;
      assert 0x2C <= n <= 0x39;
    }
  }

  lemma PriceNoSpace(w: string, cents: string)
    requires NoSpace(w)
    requires forall i :: 0 <= i < |cents| ==> IsDigit(cents[i])
    ensures NoSpace(w + "." + cents)
  {
    var r := w + "." + cents;
    forall i | 0 <= i < |r| ensures !IsJsSpace(r[i]) {
      if i < |w| { assert r[i] == w[i]; }
      else if i > |w| { assert r[i] == cents[i - |w| - 1]; }
    }
  }

  lemma {:induction false} CountNone(s: string, c: char)
    requires forall i :: 0 <= i < |s| ==> s[i] != c
    ensures Count(s, c) == 0
  {
    if |s| > 0 {
      CountNone(s[1..], c);
    }
  }

  /** The regular expression scans once: "R $5" loses its space and keeps "R$". */
  lemma StripIsSinglePass()
    ensures StripSpacesAndSymbol("R $5") == "R$5"
  {
    assert "R $5"[1..] == " $5";
    assert " $5"[1..] == "$5";
    StripPlain("$5");
  }
}
