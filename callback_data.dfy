/** The callback data carried by the bot's inline buttons: a tag, an
    underscore and a number (`char_10000046`, `profile_2`, `card_5`), and the
    `data.split("_")` / `int(parts[1])` parse that both `store_choice` and
    `character_callback` apply to it. */
module CallbackData {
  import opened Wrappers
  import opened Text

  const Separator: char := '_'

  /** The tag of a character button. */
  const CharTag: string := "char"

  /** `f"{tag}_{n}"`: the data the bot writes into its own buttons; the
      tag, an underscore, then the decimal digits that read back as `n`. */
  function Tagged(tag: string, n: nat): (data: string)
    ensures |data| > |tag| + 1 && data[..|tag|] == tag && data[|tag|] == Separator
    ensures IsDigits(data[|tag| + 1..]) && Value(data[|tag| + 1..]) == n
  {
    var data := tag + [Separator] + Decimal(n);
    assert data[..|tag|] == tag && data[|tag| + 1..] == Decimal(n);
    data
  }

  /** `parts = data.split("_")`, then `(parts[0], int(parts[1]))`; None where
      Python fails: fewer than two parts (IndexError) or a second part that
      is not an integer (ValueError). The tag is the text before the first
      underscore, and any parts after the second are ignored. */
  function ParseTagged(data: string): (r: Option<(string, nat)>)
    ensures Separator !in data ==> r == None
    ensures r.Some? ==> Separator !in r.value.0 && r.value.0 + [Separator] <= data
  {
    var parts := Split(data, Separator);
    SplitHasTwoParts(data, Separator);
    if |parts| < 2 then
      None
    else if !IsDigits(parts[1]) then
      None
    else
      assert data == parts[0] + [Separator] + Join(parts[1..], Separator);
      Some((parts[0], Value(parts[1])))
  }

  /** What ParseTagged does with data that has an underscore: the tag is
      everything before the first one, and the number is the field that
      follows, up to the next underscore, which must be all digits. */
  lemma ParseTaggedFields(tag: string, rest: string)
    requires Separator !in tag
    ensures var field := Split(rest, Separator)[0];
            ParseTagged(tag + [Separator] + rest)
            == if IsDigits(field) then Some((tag, Value(field))) else None
  {
    SplitAfterField(tag, rest, Separator);
  }

  /** Round trip: the data of the bot's own buttons parses back to the tag
      and the number it was built from. */
  lemma TaggedRoundTrip(tag: string, n: nat)
    requires Separator !in tag
    ensures ParseTagged(Tagged(tag, n)) == Some((tag, n))
  {
    DigitsExclude(Decimal(n), Separator);
    ParseTaggedFields(tag, Decimal(n));
    SplitNoSeparator(Decimal(n), Separator);
  }

  /** TaggedRoundTrip for every number at once. */
  lemma TaggedParsesAll(tag: string)
    requires Separator !in tag
    ensures forall n: nat :: ParseTagged(Tagged(tag, n)) == Some((tag, n))
  {
    forall n: nat
      ensures ParseTagged(Tagged(tag, n)) == Some((tag, n))
    {
      TaggedRoundTrip(tag, n);
    }
  }

  /** `int(query.data.split("_")[1])` in `character_callback`: None for
      malformed data, and `n` for the data of a button built as
      `char_<n>`. */
  function CharId(data: string): (id: Option<nat>)
    ensures id.Some? ==> Separator in data
    ensures forall n: nat :: data == Tagged(CharTag, n) ==> id == Some(n)
  {
    TaggedParsesAll(CharTag);
    match ParseTagged(data)
    case Some((_, n)) => Some(n)
    case None => None
  }

  /** Round trip of a character button: `char_<id>` decodes to `id`. */
  lemma CharIdRoundTrip(id: nat)
    ensures CharId(Tagged(CharTag, id)) == Some(id)
  {
    TaggedRoundTrip(CharTag, id);
  }
}
