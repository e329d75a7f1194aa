/** The inline keyboard under the profile card: one button per character,
    at most twelve, laid out in rows of four. */
module Keyboard {
  import opened Wrappers
  import opened CallbackData

  /** A roster member as the showcase reports it. */
  datatype Character = Character(id: nat, name: string)

  /** An inline button: its text and its callback data. */
  datatype Button = Button(text: string, data: string)

  /** At most this many characters get a button. */
  const MaxButtons: nat := 12

  /** Buttons per full row. */
  const RowWidth: nat := 4

  /** The button of one character, labelled with its name and carrying
      `char_<id>`. */
  function ButtonFor(c: Character): (b: Button)
    ensures b.text == c.name && CharId(b.data) == Some(c.id)
  {
    Button(c.name, Tagged(CharTag, c.id))
  }

  /** One button per character, in roster order: each is labelled with its
      character's name and, once pressed, decodes to that character's id. */
  function Buttons(cs: seq<Character>): (bs: seq<Button>)
    ensures |bs| == |cs|
    ensures forall i :: 0 <= i < |cs| ==> bs[i].text == cs[i].name && CharId(bs[i].data) == Some(cs[i].id)
  {
    seq(|cs|, i requires 0 <= i < |cs| => ButtonFor(cs[i]))
  }

  /** `characters[:12]`: the roster's first twelve characters, or all of
      them when there are fewer. */
  function FirstCharacters(cs: seq<Character>): (r: seq<Character>)
    ensures |r| == if |cs| <= MaxButtons then |cs| else MaxButtons
    ensures r == cs[..|r|]
  {
    if |cs| <= MaxButtons then cs else cs[..MaxButtons]
  }

  /** The reference layout: consecutive rows of four, the last one holding
      what is left over. */
  function Rows<T>(s: seq<T>): seq<seq<T>>
    decreases |s|
  {
    if s == [] then []
    else if |s| <= RowWidth then [s]
    else [s[..RowWidth]] + Rows(s[RowWidth..])
  }

  function Flatten<T>(rows: seq<seq<T>>): seq<T>
    decreases |rows|
  {
    if rows == [] then [] else rows[0] + Flatten(rows[1..])
  }

  /** Reading the rows left to right, top to bottom, gives the buttons back
      in order. */
  lemma {:induction false} RowsFlatten<T>(s: seq<T>)
    ensures Flatten(Rows(s)) == s
    decreases |s|
  {
    if |s| > RowWidth {
      var rows := Rows(s);
      assert rows[1..] == Rows(s[RowWidth..]);
      RowsFlatten(s[RowWidth..]);
      assert s[..RowWidth] + s[RowWidth..] == s;
    } else if s != [] {
      assert Rows(s)[1..] == [];
      assert s + [] == s;
    }
  }

  /** No row is empty, every row but the last is full, and there are as
      many rows as fours (rounded up) in the input. */
  lemma {:induction false} RowsShape<T>(s: seq<T>)
    ensures |Rows(s)| == (|s| + RowWidth - 1) / RowWidth
    ensures forall i :: 0 <= i < |Rows(s)| ==> 0 < |Rows(s)[i]| <= RowWidth
    ensures forall i :: 0 <= i < |Rows(s)| - 1 ==> |Rows(s)[i]| == RowWidth
    decreases |s|
  {
    if |s| > RowWidth {
      RowsShape(s[RowWidth..]);
      var rows := Rows(s);
      assert forall i :: 1 <= i < |rows| ==> rows[i] == Rows(s[RowWidth..])[i - 1];
    }
  }

  /** Rows of a whole number of full rows followed by anything. */
  lemma {:induction false} RowsAppend<T>(a: seq<T>, b: seq<T>)
    requires |a| % RowWidth == 0
    ensures Rows(a + b) == Rows(a) + Rows(b)
    decreases |a|
  {
    if a == [] {
      assert a + b == b;
    } else {
      assert (a + b)[..RowWidth] == a[..RowWidth];
      assert (a + b)[RowWidth..] == a[RowWidth..] + b;
      RowsAppend(a[RowWidth..], b);
      if |a| == RowWidth {
        assert a[..RowWidth] == a && Rows(a) == [a] && Rows(a[RowWidth..]) == [];
        if b == [] {
          assert a + b == a;
        }
      }
    }
  }

  /** What the layout of the first twelve characters looks like. */
  lemma KeyboardShape(characters: seq<Character>)
    ensures var keyboard := Rows(Buttons(FirstCharacters(characters)));
            && Flatten(keyboard) == Buttons(FirstCharacters(characters))
            && |keyboard| <= MaxButtons / RowWidth
            && (forall i :: 0 <= i < |keyboard| ==> 0 < |keyboard[i]| <= RowWidth)
            && (forall i :: 0 <= i < |keyboard| - 1 ==> |keyboard[i]| == RowWidth)
            && (characters == [] <==> keyboard == [])
  {
    var bs := Buttons(FirstCharacters(characters));
    RowsFlatten(bs);
    RowsShape(bs);
  }

  /** Closing a full row after the rows already laid out. */
  lemma RowsCloseRow<T>(s: seq<T>, done: nat)
    requires done % RowWidth == 0 && done + RowWidth <= |s|
    ensures Rows(s[..done + RowWidth]) == Rows(s[..done]) + [s[done..done + RowWidth]]
  {
    var row := s[done..done + RowWidth];
    assert s[..done + RowWidth] == s[..done] + row;
    RowsAppend(s[..done], row);
  }

  /** The rows laid out so far, followed by the partial row, if any. */
  lemma RowsLastRow<T>(s: seq<T>, done: nat)
    requires done % RowWidth == 0 && done <= |s| < done + RowWidth
    ensures Rows(s) == Rows(s[..done]) + (if done == |s| then [] else [s[done..]])
  {
    assert s == s[..done] + s[done..];
    RowsAppend(s[..done], s[done..]);
  }

  /** The loop of `generate_profile_card` that lays out the buttons: walk
      them in order, append each to the current row, close the row after
      every fourth, and keep a last partial row. */
  method ChunkRows<T>(items: seq<T>) returns (rows: seq<seq<T>>)
    ensures rows == Rows(items)
  {
    var row: seq<T> := [];
    rows := [];
    ghost var done := 0;  // where the current row starts
    var idx := 0;
    while idx < |items|
      invariant done % RowWidth == 0 && done <= idx <= |items| && idx - done < RowWidth
      invariant row == items[done..idx]
      invariant rows == Rows(items[..done])
    {
      row := row + [items[idx]];
      assert row == items[done..idx + 1];
      if (idx + 1) % RowWidth == 0 {
        assert idx + 1 == done + RowWidth;
        RowsCloseRow(items, done);
        rows := rows + [row];
        row := [];
        done := idx + 1;
      }
      idx := idx + 1;
    }
    assert row == items[done..] && (row == [] <==> done == |items|);
    if row != [] {
      rows := rows + [row];
    }
    RowsLastRow(items, done);
  }

  /** The keyboard under the profile card: the buttons of the first twelve
      characters, laid out in rows of four. */
  method LayoutKeyboard(characters: seq<Character>) returns (keyboard: seq<seq<Button>>)
    ensures keyboard == Rows(Buttons(FirstCharacters(characters)))
    ensures Flatten(keyboard) == Buttons(FirstCharacters(characters))
    ensures |keyboard| <= MaxButtons / RowWidth
    ensures forall i :: 0 <= i < |keyboard| ==> 0 < |keyboard[i]| <= RowWidth
    ensures forall i :: 0 <= i < |keyboard| - 1 ==> |keyboard[i]| == RowWidth
    ensures characters == [] <==> keyboard == []
  {
    keyboard := ChunkRows(Buttons(FirstCharacters(characters)));
    KeyboardShape(characters);
  }
}
