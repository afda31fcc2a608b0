/**
 * The card each entry becomes (the body of the `forEach` in the submit
 * handler), the card a parse failure becomes, and the pro/con style hint.
 * A card is the abstract content of the DOM nodes `createCard` assembles.
 */
module Cards {
  import opened JsonValue
  import opened Normalise

  /** The extra class a card receives: `card-pro`, `card-con`, or neither. */
  datatype Style = NoStyle | Positive | Negative

  /** What follows the heading on a face: a `<p>` of plain text or a `<pre>` block. */
  datatype Detail = Paragraph(text: string) | Preformatted(text: string)

  /** One face of a card: an `<h3>` heading, optionally followed by a detail. */
  datatype Face = Heading(title: string) | HeadingWithDetail(title: string, detail: Detail)

  datatype Card = Card(front: Face, back: Face, style: Style)

  /** The title a card shows on its front. */
  function Label(c: Card): string {
    c.front.title
  }

  /** An entry card shows only its key on the front; the error card shows its message there too. */
  predicate IsEntryCard(c: Card) {
    c.front.Heading?
  }

  // ---------------------------------------------------------------------------
  // Style hint
  // ---------------------------------------------------------------------------

  /**
   * `toLowerCase` on one character, for the ASCII letters. No other character
   * lower-cases to one of the letters of "pro", "pros", "con" or "cons", so the
   * comparisons below come out as they do with full Unicode lower-casing.
   */
  function LowerChar(c: char): char {
    if 'A' <= c <= 'Z' then (c as int + 32) as char else c
  }

  /**
   * `key.toLowerCase()`: same length, no upper-case ASCII letter left, every
   * upper-case letter replaced by its lower-case letter and every other
   * character kept.
   */
  function ToLower(s: string): (r: string)
    ensures |r| == |s|
    ensures forall i :: 0 <= i < |r| ==> !('A' <= r[i] <= 'Z')
    ensures forall i :: 0 <= i < |s| && 'A' <= s[i] <= 'Z' ==> r[i] as int == s[i] as int + 32
    ensures forall i :: 0 <= i < |s| && !('A' <= s[i] <= 'Z') ==> r[i] == s[i]
  {
    seq(|s|, i requires 0 <= i < |s| => LowerChar(s[i]))
  }

  /** `a` spells the lower-case word `w`, each letter in either case. */
  predicate SpellsIgnoringCase(a: string, w: string) {
    |a| == |w| && forall i :: 0 <= i < |a| ==> a[i] == w[i] || a[i] as int == w[i] as int - 32
  }

  predicate IsLowerWord(w: string) {
    forall i :: 0 <= i < |w| ==> 'a' <= w[i] <= 'z'
  }

  lemma ToLowerMatchesWord(key: string, w: string)
    requires IsLowerWord(w)
    ensures ToLower(key) == w <==> SpellsIgnoringCase(key, w)
  {
    if SpellsIgnoringCase(key, w) {
      assert forall i :: 0 <= i < |w| ==> ToLower(key)[i] == w[i];
    }
  }

  /**
   * The pro/con styling, an exact match of the lower-cased key against four
   * words. A key gets the positive style exactly when it spells "pro" or
   * "pros" in any mix of cases, and the negative style exactly when it spells
   * "con" or "cons"; any other key (such as "pro1") gets neither.
   */
  function StyleOf(key: string): (st: Style)
    ensures st == Positive <==> SpellsIgnoringCase(key, "pro") || SpellsIgnoringCase(key, "pros")
    ensures st == Negative <==> SpellsIgnoringCase(key, "con") || SpellsIgnoringCase(key, "cons")
    ensures st == NoStyle <==>
      !(SpellsIgnoringCase(key, "pro") || SpellsIgnoringCase(key, "pros")
        || SpellsIgnoringCase(key, "con") || SpellsIgnoringCase(key, "cons"))
  {
    ToLowerMatchesWord(key, "pro");
    ToLowerMatchesWord(key, "pros");
    ToLowerMatchesWord(key, "con");
    ToLowerMatchesWord(key, "cons");
    var lowerKey := ToLower(key);
    if lowerKey == "pro" || lowerKey == "pros" then Positive
    else if lowerKey == "con" || lowerKey == "cons" then Negative
    else NoStyle
  }

  // ---------------------------------------------------------------------------
  // Cards
  // ---------------------------------------------------------------------------

  /**
   * The back-face detail. A scalar or null value is shown as plain text,
   * `String(v)`, with null as the text "null"; an array or object is shown
   * preformatted, as its 2-space serialisation, which opens with its own bracket.
   */
  function DetailOf(v: Json): (d: Detail)
    ensures d.Preformatted? <==> IsStructured(v)
    ensures !IsStructured(v) ==> d.text == ToText(v)
    ensures v.JNull? ==> d == Paragraph("null")
    ensures IsStructured(v) ==> d.text == Stringify(v, "") && d.text[0] == (if v.JArray? then '[' else '{')
  {
    if IsStructured(v) then Preformatted(Stringify(v, "")) else Paragraph(ToText(v))
  }

  /** The card one entry becomes: its key on the front, key and detail on the back. */
  function CardFor(m: Member): (c: Card)
    ensures IsEntryCard(c) && Label(c) == m.key && c.back.title == m.key
  {
    Card(Heading(m.key), HeadingWithDetail(m.key, DetailOf(m.value)), StyleOf(m.key))
  }

  /** The card a parse failure becomes: heading "Error" and the message, on both faces. */
  function ErrorCard(message: string): (c: Card)
    ensures Label(c) == "Error" && !IsEntryCard(c) && c.front == c.back
    ensures c.back.detail == Paragraph(message) && c.style == NoStyle
  {
    var face := HeadingWithDetail("Error", Paragraph(message));
    Card(face, face, NoStyle)
  }

  /** One card per entry, in entry order. */
  function CardsFor(ms: seq<Member>): (cs: seq<Card>)
    ensures |cs| == |ms|
    ensures forall i :: 0 <= i < |ms| ==> cs[i] == CardFor(ms[i])
  {
    if ms == [] then [] else [CardFor(ms[0])] + CardsFor(ms[1..])
  }

  /** The cards a successfully parsed value is shown as: entry cards only, one per entry. */
  function Project(j: Json): (cs: seq<Card>)
    ensures |cs| == |Entries(j)|
    ensures forall i :: 0 <= i < |cs| ==> IsEntryCard(cs[i]) && Label(cs[i]) == Entries(j)[i].key
  {
    CardsFor(Entries(j))
  }

  /**
   * Every entry yields exactly one entry card, in entry order, labelled with
   * the entry's key on both faces and styled after that key.
   */
  lemma ProjectOnePerEntry(j: Json)
    ensures |Project(j)| == |Entries(j)|
    ensures forall i :: 0 <= i < |Project(j)| ==>
      var c, m := Project(j)[i], Entries(j)[i];
      && IsEntryCard(c)
      && Label(c) == m.key && c.back.title == m.key
      && c.back.detail == DetailOf(m.value)
      && c.style == StyleOf(m.key)
  {
  }

  /** An array of n elements gives n cards labelled "0" to "n-1", card i detailing element i. */
  lemma ProjectArray(xs: seq<Json>)
    ensures |Project(JArray(xs))| == |xs|
    ensures forall i :: 0 <= i < |xs| ==>
      Label(Project(JArray(xs))[i]) == IndexKey(i)
      && Project(JArray(xs))[i].back.detail == DetailOf(xs[i])
  {
  }

  /** A scalar or null gives the single card "value", showing `String(v)`. */
  lemma ProjectScalar(v: Json)
    requires !IsStructured(v)
    ensures Project(v) == [Card(Heading("value"), HeadingWithDetail("value", Paragraph(ToText(v))), NoStyle)]
  {
  }

  /**
   * For an object as `JSON.parse` builds it, the labels are its keys, each
   * exactly once, in the order `Object.entries` lists them.
   */
  lemma ProjectObjectLabels(ms: seq<Member>)
    requires InPropertyOrder(ms)
    ensures |Project(JObject(ms))| == |ms|
    ensures forall i :: 0 <= i < |ms| ==> Label(Project(JObject(ms))[i]) == ms[i].key
    ensures forall i, k :: 0 <= i < k < |ms| ==> Label(Project(JObject(ms))[i]) != Label(Project(JObject(ms))[k])
  {
  }

  lemma ProjectExamples()
    ensures var cs := Project(JObject([Member("pro", JStr("x")), Member("CON", JStr("y"))]));
      |cs| == 2 && cs[0].style == Positive && cs[1].style == Negative
    ensures var cs := Project(JArray([JNum(Finite("10")), JNum(Finite("20"))]));
      |cs| == 2 && Label(cs[0]) == "0" && Label(cs[1]) == "1"
  {
    var ms := [Member("pro", JStr("x")), Member("CON", JStr("y"))];
    assert SpellsIgnoringCase("pro", "pro");
    assert SpellsIgnoringCase("CON", "con");
    var cs := CardsFor(ms);
    assert cs[0] == CardFor(ms[0]) && cs[1] == CardFor(ms[1]);
    assert IndexKey(0) == "0" && IndexKey(1) == "1";
  }

  lemma StyleExamples()
    ensures StyleOf("pro1") == NoStyle && StyleOf("Pros") == Positive
  {
    assert SpellsIgnoringCase("Pros", "pros");
    var k := "pro1";
    assert k[3] != "pros"[3] && k[3] as int != "pros"[3] as int - 32;
    assert k[0] != "cons"[0] && k[0] as int != "cons"[0] as int - 32;
  }
}
