/**
  The order message both carts send: a greeting, one line per cart line,
  a blank line and a bold total, joined with newlines and appended,
  URL-encoded, to a fixed WhatsApp deep link.  Currency formatting and URL
  encoding are library behaviour and reach this model as function
  parameters; only the structure of the message is fixed here.
*/
module Text {
  import opened Lines

  /** The first message line; it carries its own trailing newline. */
  const Greeting: string := "Olá! Quero fazer um pedido:\n"

  /** The recipient of every order. */
  const WhatsAppPhone: string := "5537991243408"

  /** `https://wa.me/<phone>?text=<encoded message>`. */
  function WhatsAppLink(encodedText: string): string {
    "https://wa.me/" + WhatsAppPhone + "?text=" + encodedText
  }

  /** `sep.join(parts)` in Python, `parts.join(sep)` in JavaScript. */
  function Join(parts: seq<string>, sep: string): string {
    if |parts| == 0 then ""
    else if |parts| == 1 then parts[0]
    else parts[0] + sep + Join(parts[1..], sep)
  }

  lemma {:induction false} JoinEndsWithLast(parts: seq<string>, sep: string)
    requires |parts| > 0
    ensures |parts[|parts| - 1]| <= |Join(parts, sep)|
    ensures Join(parts, sep)[|Join(parts, sep)| - |parts[|parts| - 1]|..] == parts[|parts| - 1]
  {
    if |parts| > 1 {
      var rest := Join(parts[1..], sep);
      JoinEndsWithLast(parts[1..], sep);
      var last := parts[|parts| - 1];
      assert parts[1..][|parts[1..]| - 1] == last;
      assert Join(parts, sep) == (parts[0] + sep) + rest;
      assert rest[|rest| - |last|..] == last;
    }
  }

  lemma JoinStartsWithFirst(parts: seq<string>, sep: string)
    requires |parts| > 1
    ensures |parts[0] + sep| <= |Join(parts, sep)|
    ensures Join(parts, sep)[..|parts[0] + sep|] == parts[0] + sep
  {
  }

  function DigitChar(d: nat): char
    requires d < 10
  {
    "0123456789"[d]
  }

  function NatToString(n: nat): (r: string)
    ensures |r| >= 1
  {
    if n < 10 then [DigitChar(n)] else NatToString(n / 10) + [DigitChar(n % 10)]
  }

  /** Decimal text of an integer, as a template literal or an f-string writes it. */
  function IntToString(n: int): (r: string)
    ensures |r| >= 1
  {
    if n < 0 then "-" + NatToString(-n) else NatToString(n)
  }

  /** One message line per cart line, in store order. */
  function ItemLines(s: seq<CartLine>, line: CartLine -> string): (r: seq<string>)
    ensures |r| == |s|
    ensures forall k :: 0 <= k < |s| ==> r[k] == line(s[k])
  {
    if |s| == 0 then [] else [line(s[0])] + ItemLines(s[1..], line)
  }

  /** The running list a left-to-right loop builds: one more cart line adds its own message line. */
  lemma ItemLinesSnoc(head: seq<string>, s: seq<CartLine>, i: nat, line: CartLine -> string)
    requires i < |s|
    ensures head + ItemLines(s[..i + 1], line) == head + ItemLines(s[..i], line) + [line(s[i])]
  {
    assert ItemLines(s[..i + 1], line) == ItemLines(s[..i], line) + [line(s[i])];
  }

  /** The message lines: greeting, the item lines, a blank line, the total line. */
  function OrderLines(s: seq<CartLine>, line: CartLine -> string, totalLine: string): (r: seq<string>)
    ensures |r| == |s| + 3 && r[0] == Greeting
    ensures forall k :: 0 <= k < |s| ==> r[k + 1] == line(s[k])
    ensures r[|s| + 1] == "" && r[|s| + 2] == totalLine
  {
    [Greeting] + ItemLines(s, line) + ["", totalLine]
  }

  /** Pushing the blank line and the total line one at a time gives the same lines. */
  lemma OrderLinesPushed(s: seq<CartLine>, line: CartLine -> string, totalLine: string)
    ensures [Greeting] + ItemLines(s, line) + [""] + [totalLine] == OrderLines(s, line, totalLine)
  {
  }

  /** The joined message opens with the greeting and ends with the total line. */
  lemma MessageFraming(s: seq<CartLine>, line: CartLine -> string, totalLine: string)
    ensures var m := Join(OrderLines(s, line, totalLine), "\n");
      |Greeting + "\n"| <= |m| && m[..|Greeting + "\n"|] == Greeting + "\n" &&
      |totalLine| <= |m| && m[|m| - |totalLine|..] == totalLine
  {
    var lines := OrderLines(s, line, totalLine);
    JoinStartsWithFirst(lines, "\n");
    JoinEndsWithLast(lines, "\n");
  }
}
