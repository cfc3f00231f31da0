/**
 * The colour picker of the design bar: `normalizeHex`, the parser that turns what the
 * user typed into a canonical `#rrggbb` colour, and the input controller around it that
 * decides when a colour is committed to the parent.
 */
module ColorHex {
  import opened Common
  import opened Ascii

  /** A character of the class `[0-9a-f]`. */
  predicate IsHexDigit(c: char) {
    '0' <= c <= '9' || 'a' <= c <= 'f'
  }

  predicate AllHex(s: string) {
    forall i | 0 <= i < |s| :: IsHexDigit(s[i])
  }

  /** The only shape `normalizeHex` ever returns: `#` and six lower-case hex digits. */
  predicate IsCanonical(c: string) {
    |c| == 7 && c[0] == '#' && AllHex(c[1..])
  }

  /** What the regular expression is matched against: the input trimmed, lower-cased,
      and with at most one leading `#` removed. */
  function Digits(input: string): (d: string)
    ensures |d| <= |input|
  {
    var s := ToLower(Trim(input));
    if |s| > 0 && s[0] == '#' then s[1..] else s
  }

  /** `split('').map(c => c + c).join('')`: every character written twice, in order. */
  function DoubleEach(s: string): (r: string)
    ensures |r| == 2 * |s|
    ensures forall j | 0 <= j < |r| :: r[j] == s[j / 2]
  {
    if s == [] then []
    else
      var t := DoubleEach(s[1..]);
      assert forall j | 2 <= j < 2 * |s| :: (j - 2) / 2 == j / 2 - 1;
      [s[0], s[0]] + t
  }

  /** `normalizeHex`: `None` for the empty string and for anything whose digits are not
      exactly three or six hex digits; otherwise the canonical colour. */
  function NormalizeHex(input: string): (r: Option<string>)
    ensures input == [] ==> r == None
    ensures r.Some? <==> AllHex(Digits(input)) && |Digits(input)| in {3, 6}
    ensures r.Some? ==> IsCanonical(r.value)
  {
    if input == [] then None
    else
      var s := Digits(input);
      if !(AllHex(s) && (|s| == 3 || |s| == 6)) then None
      else if |s| == 3 then Some("#" + DoubleEach(s))
      else Some("#" + s)
  }

  /** Six hex digits pass through unchanged behind a `#`. */
  lemma NormalizeHexLongForm(input: string)
    requires AllHex(Digits(input)) && |Digits(input)| == 6
    ensures NormalizeHex(input) == Some("#" + Digits(input))
  {
  }

  /** Three hex digits expand by doubling each digit in place: `#abc` becomes `#aabbcc`. */
  lemma NormalizeHexShorthand(input: string)
    requires AllHex(Digits(input)) && |Digits(input)| == 3
    ensures NormalizeHex(input).Some?
    ensures var c, d := NormalizeHex(input).value, Digits(input);
      c[1] == c[2] == d[0] && c[3] == c[4] == d[1] && c[5] == c[6] == d[2]
  {
    var d := Digits(input);
    var e := DoubleEach(d);
    assert e[0] == e[1] == d[0] && e[2] == e[3] == d[1] && e[4] == e[5] == d[2];
  }

  /** A canonical colour is a fixed point of the parser. */
  lemma NormalizeHexFixesCanonical(c: string)
    requires IsCanonical(c)
    ensures NormalizeHex(c) == Some(c)
  {
    assert IsHexDigit(c[6]) by { assert c[1..][5] == c[6]; }
    TrimFixesUnpadded(c);
    forall i | 0 <= i < |c| ensures !IsUpper(c[i]) {
      if i > 0 { assert c[1..][i - 1] == c[i]; }
    }
    ToLowerFixesLower(c);
    assert Digits(c) == c[1..];
    assert "#" + c[1..] == c;
  }

  /** `normalizeHex` is idempotent: normalising a result again gives the same result. */
  lemma NormalizeHexIdempotent(input: string)
    requires NormalizeHex(input).Some?
    ensures NormalizeHex(NormalizeHex(input).value) == NormalizeHex(input)
  {
    NormalizeHexFixesCanonical(NormalizeHex(input).value);
  }

  /** Digits that are not exactly three or six long are refused, whatever they are. */
  lemma NormalizeHexRejectsLength(input: string)
    requires |Digits(input)| != 3 && |Digits(input)| != 6
    ensures NormalizeHex(input) == None
  {
  }

  /** Only one `#` is stripped, so a second one is refused. */
  lemma NormalizeHexRejectsSecondHash(input: string)
    requires var s := ToLower(Trim(input)); |s| > 1 && s[0] == '#' && s[1] == '#'
    ensures NormalizeHex(input) == None
  {
    assert !IsHexDigit(Digits(input)[0]);
  }

  /** The shorthand example of the colour field: `#ABC` becomes `#aabbcc`. */
  lemma NormalizeHexExampleShorthand()
    ensures NormalizeHex("#ABC") == Some("#aabbcc")
  {
    TrimFixesUnpadded("#ABC");
    var low := ToLower("#ABC");
    assert low[1] == 'a' && low[2] == 'b' && low[3] == 'c';
    assert Digits("#ABC") == "abc";
    var d := DoubleEach("abc");
    assert d[0] == d[1] == 'a' && d[2] == d[3] == 'b' && d[4] == d[5] == 'c';
    assert "#" + d == "#aabbcc";
  }

  /** Malformed examples of the colour field are refused: a doubled `#`, four digits,
      and a word. */
  lemma NormalizeHexExamplesRejected()
    ensures NormalizeHex("##abc") == None
    ensures NormalizeHex("abcd") == None
    ensures NormalizeHex("not-a-color") == None
  {
    TrimFixesUnpadded("##abc");
    NormalizeHexRejectsSecondHash("##abc");
    TrimFixesUnpadded("abcd");
    NormalizeHexRejectsLength("abcd");
    TrimFixesUnpadded("not-a-color");
    NormalizeHexRejectsLength("not-a-color");
  }

  datatype Key = Enter | Escape | OtherKey

  /**
   * The `ColorPicker` component's state. `emitted` records, in order, every value the
   * component has passed to its `onChange` prop.
   */
  class ColorPicker {
    var isOpen: bool
    var localColor: string
    var inputValue: string
    var emitted: seq<string>

    /** Both fields start from `normalizeHex(color) ?? color`; the popover is closed. */
    constructor (color: string)
      ensures localColor == inputValue == NormalizeHex(color).GetOr(color)
      ensures !isOpen && emitted == []
    {
      isOpen := false;
      localColor := NormalizeHex(color).GetOr(color);
      inputValue := NormalizeHex(color).GetOr(color);
      emitted := [];
    }

    /** The effect on a new `color` prop: a valid colour replaces both fields with its
        canonical form; an invalid one only replaces the text in the input. */
    method SyncColor(color: string)
      modifies this
      ensures NormalizeHex(color).Some? ==>
        localColor == inputValue == NormalizeHex(color).value
      ensures NormalizeHex(color).None? ==>
        localColor == old(localColor) && inputValue == color
      ensures isOpen == old(isOpen) && emitted == old(emitted)
    {
      match NormalizeHex(color)
      case Some(c) =>
        localColor, inputValue := c, c;
      case None =>
        inputValue := color;
    }

    /** The popover's picker reports a colour: it is committed everywhere, normalised
        when possible and taken as it is otherwise. */
    method PickerChange(newColor: string)
      modifies this
      ensures localColor == inputValue == NormalizeHex(newColor).GetOr(newColor)
      ensures emitted == old(emitted) + [localColor]
      ensures isOpen == old(isOpen)
    {
      var norm := NormalizeHex(newColor).GetOr(newColor);
      localColor := norm;
      inputValue := norm;
      emitted := emitted + [norm];
    }

    /** Typing always shows the text; the colour changes, and the parent hears of it,
        only when the text parses. */
    method InputChange(v: string)
      modifies this
      ensures inputValue == v && isOpen == old(isOpen)
      ensures NormalizeHex(v).Some? ==>
        localColor == NormalizeHex(v).value && emitted == old(emitted) + [localColor]
      ensures NormalizeHex(v).None? ==>
        localColor == old(localColor) && emitted == old(emitted)
    {
      inputValue := v;
      var norm := NormalizeHex(v);
      if norm.Some? {
        localColor := norm.value;
        emitted := emitted + [norm.value];
      }
    }

    /** Enter commits a parsable input (canonicalising the text) and closes the popover;
        on unparsable input it does nothing. Escape only closes. */
    method InputKeyDown(key: Key)
      modifies this
      ensures key == Enter && NormalizeHex(old(inputValue)).Some? ==>
        var c := NormalizeHex(old(inputValue)).value;
        localColor == inputValue == c && emitted == old(emitted) + [c] && !isOpen
      ensures key == Enter && NormalizeHex(old(inputValue)).None? ==>
        localColor == old(localColor) && inputValue == old(inputValue) &&
        emitted == old(emitted) && isOpen == old(isOpen)
      ensures key == Escape ==>
        localColor == old(localColor) && inputValue == old(inputValue) &&
        emitted == old(emitted) && !isOpen
      ensures key == OtherKey ==>
        localColor == old(localColor) && inputValue == old(inputValue) &&
        emitted == old(emitted) && isOpen == old(isOpen)
    {
      if key == Enter {
        var norm := NormalizeHex(inputValue);
        if norm.Some? {
          localColor := norm.value;
          inputValue := norm.value;
          emitted := emitted + [norm.value];
          isOpen := false;
        }
      } else if key == Escape {
        isOpen := false;
      }
    }

    /** The swatch button toggles the popover. */
    method ToggleOpen()
      modifies this`isOpen
      ensures isOpen == !old(isOpen)
    {
      isOpen := !isOpen;
    }

    /** A document mouse-down closes an open popover when it lands outside both the
        popover and the component. */
    method DocumentMouseDown(outside: bool)
      modifies this`isOpen
      ensures isOpen == (old(isOpen) && !outside)
    {
      if isOpen && outside {
        isOpen := false;
      }
    }
  }
}
