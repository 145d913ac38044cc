/** The auto-formatters of the cédula and phone inputs. Both registration
    screens carry the cédula and the phone formatter, and the login screen a
    cédula formatter laid out differently that builds the same text; each is
    modelled once here.

    The layout of a cédula is `D-DDDD-DDDD` (at most nine digits, at most 11
    characters, the input's `maxLength`); that of a phone number is
    `DDDD-DDDD` (at most eight digits, at most 9 characters). */
module Formatting {

  import opened Text

  /** The cédula layout of a digit string: one digit, a hyphen, the next
      four, a hyphen, the rest. A reference definition, written by cases on
      the number of digits rather than by appends. */
  function CedulaLayout(d: string): string {
    if |d| <= 1 then d
    else if |d| <= 5 then d[..1] + "-" + d[1..]
    else d[..1] + "-" + d[1..5] + "-" + d[5..]
  }

  /** What the cédula field shows after the user types `text`. */
  function Cedula(text: string): string {
    CedulaLayout(Take(Digits(text), 9))
  }

  /** The phone layout of a digit string: four digits, a hyphen, the rest. */
  function TelefonoLayout(d: string): string {
    if |d| <= 4 then d else d[..4] + "-" + d[4..]
  }

  /** What the phone field shows after the user types `text`. */
  function Telefono(text: string): string {
    TelefonoLayout(Take(Digits(text), 8))
  }

  /** `formatCedula`: the digit filter, then three guarded appends onto
      `formattedText`. */
  method FormatCedula(text: string) returns (formattedText: string)
    ensures formattedText == Cedula(text)
  {
    var cleanedText := Digits(text);
    formattedText := "";
    if |cleanedText| > 0 {
      formattedText := formattedText + Substring(cleanedText, 0, 1);
    }
    if |cleanedText| > 1 {
      formattedText := formattedText + "-" + Substring(cleanedText, 1, 5);
    }
    if |cleanedText| > 5 {
      formattedText := formattedText + "-" + Substring(cleanedText, 5, 9);
    }
  }

  /** `formatTelefono`: the digit filter, then two guarded appends. */
  method FormatTelefono(text: string) returns (formattedText: string)
    ensures formattedText == Telefono(text)
  {
    var cleanedText := Digits(text);
    formattedText := "";
    if |cleanedText| > 0 {
      formattedText := formattedText + Substring(cleanedText, 0, 4);
    }
    if |cleanedText| > 4 {
      formattedText := formattedText + "-" + Substring(cleanedText, 4, 8);
    }
  }

  // ---- properties of the cédula formatter ----

  /** With its hyphens removed, the formatted cédula is exactly the first
      nine digits of the input; every other character is discarded. */
  lemma CedulaKeepsDigits(text: string)
    ensures NoHyphens(Cedula(text)) == Take(Digits(text), 9)
  {
    var d := Take(Digits(text), 9);
    CedulaLayoutPieces(d);
    if |d| <= 1 {
      NoHyphensOfDigits(d);
    } else if |d| <= 5 {
      NoHyphensOfDigits(d[..1]);
      NoHyphensOfDigits(d[1..]);
      NoHyphensAppend(d[..1] + "-", d[1..]);
      NoHyphensAppend(d[..1], "-");
      assert d[..1] + d[1..] == d;
    } else {
      NoHyphensOfDigits(d[..1]);
      NoHyphensOfDigits(d[1..5]);
      NoHyphensOfDigits(d[5..]);
      NoHyphensAppend(d[..1] + "-" + d[1..5] + "-", d[5..]);
      NoHyphensAppend(d[..1] + "-" + d[1..5], "-");
      NoHyphensAppend(d[..1] + "-", d[1..5]);
      NoHyphensAppend(d[..1], "-");
      assert d[..1] + d[1..5] + d[5..] == d;
    }
  }

  /** The pieces of a layout of digits are digits. */
  lemma CedulaLayoutPieces(d: string)
    requires AllDigits(d)
    ensures |d| > 1 ==> AllDigits(d[..1]) && AllDigits(d[1..])
    ensures |d| > 5 ==> AllDigits(d[1..5]) && AllDigits(d[5..])
  {
  }

  /** Hyphens stand exactly at index 1 (when there are more than one digit)
      and at index 6 (when there are more than five); the output is never
      longer than 11 characters, the input's `maxLength`. */
  lemma CedulaHyphens(text: string)
    ensures var n, r := |Digits(text)|, Cedula(text);
      && |r| <= 11
      && |r| == Min(n, 9) + (if n > 1 then 1 else 0) + (if n > 5 then 1 else 0)
      && forall i :: 0 <= i < |r| ==> (r[i] == '-' <==> (i == 1 && n > 1) || (i == 6 && n > 5))
  {
    var d := Take(Digits(text), 9);
    assert AllDigits(d);
    var r := Cedula(text);
    forall i | 0 <= i < |r|
      ensures r[i] == '-' <==> (i == 1 && |d| > 1) || (i == 6 && |d| > 5)
    {
      if |d| > 5 {
        assert r == d[..1] + "-" + d[1..5] + "-" + d[5..];
        if i > 6 { assert r[i] == d[i - 2]; }
        else if 1 < i < 6 { assert r[i] == d[i - 1]; }
      } else if |d| > 1 {
        assert r == d[..1] + "-" + d[1..];
        if i > 1 { assert r[i] == d[i - 1]; }
      }
    }
  }

  /** Typing the field's own content again changes nothing. */
  lemma CedulaIdempotent(text: string)
    ensures Cedula(Cedula(text)) == Cedula(text)
  {
    var d := Take(Digits(text), 9);
    CedulaLayoutDigits(d);
    assert Take(d, 9) == d;
  }

  /** The digits of a layout are the digits laid out. */
  lemma CedulaLayoutDigits(d: string)
    requires AllDigits(d)
    ensures Digits(CedulaLayout(d)) == d
  {
    CedulaLayoutPieces(d);
    if |d| <= 1 {
      DigitsOfDigits(d);
    } else if |d| <= 5 {
      DigitsOfDigits(d[..1]);
      DigitsOfDigits(d[1..]);
      DigitsAppend(d[..1] + "-", d[1..]);
      DigitsAppend(d[..1], "-");
      assert d[..1] + d[1..] == d;
    } else {
      DigitsOfDigits(d[..1]);
      DigitsOfDigits(d[1..5]);
      DigitsOfDigits(d[5..]);
      DigitsAppend(d[..1] + "-" + d[1..5] + "-", d[5..]);
      DigitsAppend(d[..1] + "-" + d[1..5], "-");
      DigitsAppend(d[..1] + "-", d[1..5]);
      DigitsAppend(d[..1], "-");
      assert d[..1] + d[1..5] + d[5..] == d;
    }
  }

  // ---- properties of the phone formatter ----

  /** With its hyphen removed, the formatted phone number is exactly the
      first eight digits of the input. */
  lemma TelefonoKeepsDigits(text: string)
    ensures NoHyphens(Telefono(text)) == Take(Digits(text), 8)
  {
    var d := Take(Digits(text), 8);
    if |d| <= 4 {
      NoHyphensOfDigits(d);
    } else {
      assert AllDigits(d[..4]) && AllDigits(d[4..]);
      NoHyphensOfDigits(d[..4]);
      NoHyphensOfDigits(d[4..]);
      NoHyphensAppend(d[..4] + "-", d[4..]);
      NoHyphensAppend(d[..4], "-");
      assert d[..4] + d[4..] == d;
    }
  }

  /** A single hyphen, at index 4, exactly when there are more than four
      digits; never longer than 9 characters, the input's `maxLength`. */
  lemma TelefonoHyphen(text: string)
    ensures var n, r := |Digits(text)|, Telefono(text);
      && |r| <= 9
      && |r| == Min(n, 8) + (if n > 4 then 1 else 0)
      && forall i :: 0 <= i < |r| ==> (r[i] == '-' <==> i == 4 && n > 4)
  {
    var d := Take(Digits(text), 8);
    assert AllDigits(d);
    var r := Telefono(text);
    forall i | 0 <= i < |r|
      ensures r[i] == '-' <==> i == 4 && |d| > 4
    {
      if |d| > 4 {
        assert r == d[..4] + "-" + d[4..];
        if i > 4 { assert r[i] == d[i - 1]; }
      }
    }
  }

  /** Typing the field's own content again changes nothing. */
  lemma TelefonoIdempotent(text: string)
    ensures Telefono(Telefono(text)) == Telefono(text)
  {
    var d := Take(Digits(text), 8);
    TelefonoLayoutDigits(d);
    assert Take(d, 8) == d;
  }

  /** The digits of a layout are the digits laid out. */
  lemma TelefonoLayoutDigits(d: string)
    requires AllDigits(d)
    ensures Digits(TelefonoLayout(d)) == d
  {
    if |d| <= 4 {
      DigitsOfDigits(d);
    } else {
      assert AllDigits(d[..4]) && AllDigits(d[4..]);
      DigitsOfDigits(d[..4]);
      DigitsOfDigits(d[4..]);
      DigitsAppend(d[..4] + "-", d[4..]);
      DigitsAppend(d[..4], "-");
      assert d[..4] + d[4..] == d;
    }
  }
}
