/**
 * String helpers the header relies on: ASCII `::tolower`, stout's `stringify`
 * of a size (decimal digits) and `strings::join`, each with an independent
 * partner (a parser or a splitter) and the lemma connecting the two.
 */
module Text {

  /** `::tolower` in the "C" locale: only 'A'..'Z' are folded. */
  function ToLower(c: char): (r: char)
    ensures 'A' <= c <= 'Z' ==> r as int == c as int + 32
    ensures !('A' <= c <= 'Z') ==> r == c
  {
    if 'A' <= c <= 'Z' then (c as int + 32) as char else c
  }

  /** The whole string folded one character at a time. */
  function Fold(s: string): (r: string)
    ensures |r| == |s|
  {
    seq(|s|, i requires 0 <= i < |s| => ToLower(s[i]))
  }

  // ---------------------------------------------------------------------
  // Decimal rendering of a size, as `stringify(body.size())` produces it.

  predicate IsDigit(c: char) { '0' <= c <= '9' }

  function DigitChar(d: nat): (c: char)
    requires d < 10
    ensures IsDigit(c)
  {
    ('0' as int + d) as char
  }

  function DigitValue(c: char): (d: nat)
    requires IsDigit(c)
    ensures d < 10
  {
    c as int - '0' as int
  }

  /** `stringify(n)` for an unsigned size: decimal, no sign, no leading zero. */
  function Decimal(n: nat): (r: string)
    ensures |r| >= 1
    ensures forall i :: 0 <= i < |r| ==> IsDigit(r[i])
    ensures |r| > 1 ==> r[0] != '0'
    decreases n
  {
    if n < 10 then [DigitChar(n)] else Decimal(n / 10) + [DigitChar(n % 10)]
  }

  /** Reads a string of digits back as a number (the reader's side of `Content-Length`). */
  function ParseDecimal(s: string): (n: nat)
    requires forall i :: 0 <= i < |s| ==> IsDigit(s[i])
  {
    if s == [] then 0 else 10 * ParseDecimal(s[..|s| - 1]) + DigitValue(s[|s| - 1])
  }

  lemma {:induction false} DecimalRoundTrip(n: nat)
    ensures ParseDecimal(Decimal(n)) == n
    decreases n
  {
    var r := Decimal(n);
    if n >= 10 {
      DecimalRoundTrip(n / 10);
      assert r[..|r| - 1] == Decimal(n / 10);
    }
  }

  // ---------------------------------------------------------------------
  // `strings::join(", ", items)` and the reading of such a list back.

  /**
   * `strings::join(sep, items)`: the items with `sep` between neighbours.
   * With a non-empty separator the result is "" only for no items or the one
   * item "", and it always starts with the first item.
   */
  function Join(sep: string, items: seq<string>): (r: string)
    ensures |sep| > 0 ==> (r == "" <==> |items| == 0 || items == [""])
    ensures |items| >= 1 ==> items[0] <= r
    decreases |items|
  {
    if |items| == 0 then ""
    else if |items| == 1 then items[0]
    else items[0] + sep + Join(sep, items[1..])
  }

  /** Splits at every ',' (the list separator of an RFC 2616 `#rule` header). */
  function SplitAtCommas(s: string): (r: seq<string>)
    ensures |r| >= 1
  {
    if s == [] then [""]
    else if s[0] == ',' then [""] + SplitAtCommas(s[1..])
    else
      var rest := SplitAtCommas(s[1..]);
      [[s[0]] + rest[0]] + rest[1..]
  }

  /** Drops the one space that `", "` puts before every item but the first. */
  function DropSpace(s: string): string
  {
    if s != [] && s[0] == ' ' then s[1..] else s
  }

  /**
   * Reads a header value written by `Join(", ", items)` back into its items;
   * an empty value lists no items, as section 14.7 of RFC 2616 reads an empty `Allow`.
   */
  function ListItems(s: string): (r: seq<string>)
    ensures r == [] <==> s == ""
  {
    if s == "" then []
    else
      var parts := SplitAtCommas(s);
      [parts[0]] + DropSpaces(parts[1..])
  }

  function DropSpaces(parts: seq<string>): (r: seq<string>)
    ensures |r| == |parts|
  {
    if parts == [] then [] else [DropSpace(parts[0])] + DropSpaces(parts[1..])
  }

  /** Every item with one space in front, as `", "` leaves the items after the first. */
  function Spaced(items: seq<string>): (r: seq<string>)
    ensures |r| == |items|
  {
    if items == [] then [] else [" " + items[0]] + Spaced(items[1..])
  }

  predicate NoComma(s: string)
  {
    forall i :: 0 <= i < |s| ==> s[i] != ','
  }

  lemma {:induction false} SplitItemAlone(x: string)
    requires NoComma(x)
    ensures SplitAtCommas(x) == [x]
    decreases |x|
  {
    if x != [] {
      SplitItemAlone(x[1..]);
      assert [x[0]] + x[1..] == x;
    }
  }

  lemma {:induction false} SplitItemThen(x: string, tail: string)
    requires NoComma(x)
    ensures SplitAtCommas(x + "," + tail) == [x] + SplitAtCommas(tail)
    decreases |x|
  {
    var s := x + "," + tail;
    if x == [] {
      assert s[1..] == tail;
    } else {
      assert s[1..] == x[1..] + "," + tail;
      SplitItemThen(x[1..], tail);
      assert [x[0]] + x[1..] == x;
    }
  }

  /** `Join(", ", items)` splits at its commas into the first item and the others, each after one space. */
  lemma {:induction false} SplitJoined(items: seq<string>)
    requires |items| >= 1
    requires forall i :: 0 <= i < |items| ==> NoComma(items[i])
    ensures SplitAtCommas(Join(", ", items)) == [items[0]] + Spaced(items[1..])
    decreases |items|
  {
    if |items| == 1 {
      SplitItemAlone(items[0]);
    } else {
      var tail := items[1..];
      var rest := Join(", ", tail);
      assert Join(", ", items) == items[0] + "," + (" " + rest);
      SplitItemThen(items[0], " " + rest);
      SplitJoined(tail);
      assert (" " + rest)[1..] == rest;
      assert tail[1..] == items[2..];
    }
  }

  lemma {:induction false} DropSpacesOfSpaced(items: seq<string>)
    ensures DropSpaces(Spaced(items)) == items
  {
    if items != [] {
      DropSpacesOfSpaced(items[1..]);
      assert (" " + items[0])[1..] == items[0];
    }
  }

  /**
   * Reading the joined list back gives the items, the empty list included,
   * provided every item is a non-empty token without a comma.
   */
  lemma ListItemsOfJoin(items: seq<string>)
    requires forall i :: 0 <= i < |items| ==> items[i] != "" && NoComma(items[i])
    ensures ListItems(Join(", ", items)) == items
  {
    if items != [] {
      SplitJoined(items);
      DropSpacesOfSpaced(items[1..]);
    }
  }

  // ---------------------------------------------------------------------
  // A `std::string` rebuilt from a `const char*` stops at the first NUL.

  predicate NulFree(s: string)
  {
    forall i :: 0 <= i < |s| ==> s[i] != '\0'
  }

  /**
   * `std::string(s.data())`: the longest prefix of `s` without a NUL. It is
   * all of `s` exactly when `s` holds no NUL.
   */
  function UpToNul(s: string): (r: string)
    ensures r <= s && NulFree(r)
    ensures |r| < |s| ==> s[|r|] == '\0'
    ensures r == s <==> NulFree(s)
  {
    if s == [] || s[0] == '\0' then [] else [s[0]] + UpToNul(s[1..])
  }

  /** Distinct sizes print differently, so `Content-Length` names one size. */
  lemma DecimalInjective(m: nat, n: nat)
    ensures Decimal(m) == Decimal(n) ==> m == n
  {
    DecimalRoundTrip(m);
    DecimalRoundTrip(n);
  }
}
