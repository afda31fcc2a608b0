/**
 * The submit handler of the JSON form: trim the input, ignore it when blank,
 * otherwise clear the card grid, parse, and append either one card per entry
 * or the single error card.
 */
module Submit {
  import opened JsonValue
  import opened Normalise
  import opened Cards

  /** The outcome of `JSON.parse`: a value, or the message of the `SyntaxError` it threw. */
  datatype ParseResult = Parsed(value: Json) | ParseError(message: string)

  /** The characters `String.prototype.trim` removes: JavaScript white space and line terminators. */
  predicate IsJsWhitespace(c: char) {
    var n := c as int;
    n == 0x09 || n == 0x0A || n == 0x0B || n == 0x0C || n == 0x0D || n == 0x20 || n == 0xA0
    || n == 0x1680 || (0x2000 <= n <= 0x200A) || n == 0x2028 || n == 0x2029 || n == 0x202F
    || n == 0x205F || n == 0x3000 || n == 0xFEFF
  }

  function TrimStart(s: string): (r: string)
    ensures |r| <= |s| && r == s[|s| - |r|..]
    ensures forall i :: 0 <= i < |s| - |r| ==> IsJsWhitespace(s[i])
    ensures r != [] ==> !IsJsWhitespace(r[0])
  {
    if s != [] && IsJsWhitespace(s[0]) then TrimStart(s[1..]) else s
  }

  function TrimEnd(s: string): (r: string)
    ensures |r| <= |s| && r == s[..|r|]
    ensures forall i :: |r| <= i < |s| ==> IsJsWhitespace(s[i])
    ensures r != [] ==> !IsJsWhitespace(r[|r| - 1])
  {
    if s != [] && IsJsWhitespace(s[|s| - 1]) then TrimEnd(s[..|s| - 1]) else s
  }

  /**
   * `String.prototype.trim`: the input without its leading and trailing white
   * space. It is empty exactly when the input is nothing but white space.
   */
  function Trim(s: string): (r: string)
    ensures r != [] ==> !IsJsWhitespace(r[0]) && !IsJsWhitespace(r[|r| - 1])
    ensures r == [] <==> forall i :: 0 <= i < |s| ==> IsJsWhitespace(s[i])
  {
    var t := TrimStart(s);
    var r := TrimEnd(t);
    assert t == [] ==> forall i :: 0 <= i < |s| ==> IsJsWhitespace(s[i]);
    r
  }

  /** Cutting white space off the front of `s` and then off the back of the rest leaves a slice of `s`. */
  lemma CutBothEnds(s: string, t: string, r: string) returns (start: nat)
    requires |t| <= |s| && t == s[|s| - |t|..]
    requires |r| <= |t| && r == t[..|r|]
    requires forall i :: 0 <= i < |s| - |t| ==> IsJsWhitespace(s[i])
    requires forall i :: |r| <= i < |t| ==> IsJsWhitespace(t[i])
    ensures start + |r| <= |s| && r == s[start..start + |r|]
    ensures forall i :: 0 <= i < start ==> IsJsWhitespace(s[i])
    ensures forall i :: start + |r| <= i < |s| ==> IsJsWhitespace(s[i])
  {
    start := |s| - |t|;
    forall i | start + |r| <= i < |s|
      ensures IsJsWhitespace(s[i])
    {
      assert s[i] == t[i - start];
    }
  }

  /** The trimmed text is a contiguous piece of the input, and all that was cut off is white space. */
  lemma TrimCutsOnlyWhitespace(s: string) returns (start: nat)
    ensures var r := Trim(s); start + |r| <= |s| && r == s[start..start + |r|]
    ensures forall i :: 0 <= i < start ==> IsJsWhitespace(s[i])
    ensures forall i :: start + |Trim(s)| <= i < |s| ==> IsJsWhitespace(s[i])
  {
    var t := TrimStart(s);
    var r := TrimEnd(t);
    assert Trim(s) == r;
    start := CutBothEnds(s, t, r);
  }

  /**
   * The cards a parse outcome is shown as. A parse failure short-circuits the
   * projection: exactly one unstyled card, labelled "Error" and carrying the
   * message, and no entry card. A successful parse produces entry cards only.
   */
  function Render(outcome: ParseResult): (cs: seq<Card>)
    ensures outcome.ParseError? ==>
      && |cs| == 1
      && Label(cs[0]) == "Error"
      && cs[0].back.HeadingWithDetail? && cs[0].back.detail == Paragraph(outcome.message)
      && cs[0].style == NoStyle
      && forall c :: c in cs ==> !IsEntryCard(c)
    ensures outcome.Parsed? ==> forall c :: c in cs ==> IsEntryCard(c)
  {
    match outcome
    case ParseError(message) => [ErrorCard(message)]
    case Parsed(value) => Project(value)
  }

  lemma CardsForStep(ms: seq<Member>, i: nat)
    requires i < |ms|
    ensures CardsFor(ms[..i + 1]) == CardsFor(ms[..i]) + [CardFor(ms[i])]
  {
    assert ms[..i + 1] == ms[..i] + [ms[i]];
  }

  /** The `#cards` container: the cards on the page, in the order they were appended. */
  class CardGrid {
    var cards: seq<Card>

    /** `cardsContainer.innerHTML = ''`. */
    method Clear()
      modifies this
      ensures cards == []
    {
      cards := [];
    }

    /** `cardsContainer.appendChild(card)`, the last step of `createCard`. */
    method Append(c: Card)
      modifies this
      ensures cards == old(cards) + [c]
    {
      cards := cards + [c];
    }
  }

  /**
   * `Object.entries(parsed).forEach(...)`: one card per entry, appended to the
   * grid in entry order after the cards already there.
   */
  method AppendEntryCards(grid: CardGrid, entries: seq<Member>)
    modifies grid
    ensures grid.cards == old(grid.cards) + CardsFor(entries)
  {
    ghost var start := grid.cards;
    for i := 0 to |entries|
      invariant grid.cards == start + CardsFor(entries[..i])
    {
      CardsForStep(entries, i);
      grid.Append(CardFor(entries[i]));
    }
    assert entries[..|entries|] == entries;
  }

  /**
   * The form's submit handler. A blank input leaves the page as it was;
   * otherwise the grid ends up holding exactly the cards the parse outcome
   * renders as, the previous cards gone.
   */
  method HandleSubmit(grid: CardGrid, input: string, parse: string -> ParseResult)
    modifies grid
    ensures Trim(input) == [] ==> grid.cards == old(grid.cards)
    ensures Trim(input) != [] ==> grid.cards == Render(parse(Trim(input)))
  {
    var raw := Trim(input);
    if raw == [] {
      return;
    }
    grid.Clear();
    var outcome := parse(raw);
    if outcome.ParseError? {
      grid.Append(ErrorCard(outcome.message));
    } else {
      AppendEntryCards(grid, Entries(outcome.value));
    }
  }
}
