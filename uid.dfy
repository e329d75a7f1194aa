/** The two ways a user links a game account id (UID) to their chat id:
    the `/genshinlogin <uid>` command and a plain text message sent while the
    bot awaits a UID. Both are pure checks here; the handlers that store the
    result live in module Bot. */
module Uid {
  import opened Text

  datatype LoginCheck =
    | Usage                  // no argument, or the argument is not all digits
    | BadLength              // digits, but not 8 to 10 of them
    | Accepted(uid: string)

  /** The argument checks of `/genshinlogin`: the first argument must be
      all digits, and once stripped, 8 to 10 characters long. */
  function CheckLoginArgs(args: seq<string>): (v: LoginCheck)
    ensures v.Usage? <==> |args| == 0 || !IsDigits(args[0])
    ensures v.Accepted? <==> |args| > 0 && IsDigits(args[0]) && 8 <= |args[0]| <= 10
    ensures v.Accepted? ==> v.uid == args[0]
  {
    if |args| == 0 || !IsDigits(args[0]) then
      Usage
    else
      var uid := Strip(args[0]);
      StripDigits(args[0]);
      if !(8 <= |uid| <= 10) then BadLength else Accepted(uid)
  }

  datatype UidTextCheck = InvalidUid | UidAccepted(uid: string)

  /** `text[i..j]` is a run of digits with only whitespace around it. */
  predicate PaddedDigits(text: string, i: int, j: int)
  {
    0 <= i <= j <= |text| && AllSpace(text[..i]) && IsDigits(text[i..j]) && AllSpace(text[j..])
  }

  /** The check of a text message sent while a UID is awaited: the text
      is accepted exactly when it is a run of digits, of any length, padded
      with whitespace, and the UID is that run. */
  function CheckUidText(text: string): (v: UidTextCheck)
    ensures v.UidAccepted? <==> exists i, j :: PaddedDigits(text, i, j)
    ensures forall i, j :: PaddedDigits(text, i, j) ==> v == UidAccepted(text[i..j])
    ensures IsDigits(text) ==> v == UidAccepted(text)
  {
    UidTextPadding(text);
    var uid := Strip(text);
    if IsDigits(uid) then UidAccepted(uid) else InvalidUid
  }

  /** The stripped text is digits exactly when the text is padded digits,
      and then it is those digits. */
  lemma UidTextPadding(text: string)
    ensures IsDigits(Strip(text)) <==> exists i, j :: PaddedDigits(text, i, j)
    ensures forall i, j :: PaddedDigits(text, i, j) ==> Strip(text) == text[i..j]
    ensures IsDigits(text) ==> Strip(text) == text
  {
    forall i, j | PaddedDigits(text, i, j)
      ensures Strip(text) == text[i..j]
    {
      StripPaddedDigits(text, i, j);
    }
    if IsDigits(Strip(text)) {
      StripIsSlice(text);
      var i, j :| 0 <= i <= j <= |text| && AllSpace(text[..i]) && Strip(text) == text[i..j] && AllSpace(text[j..]);
      assert PaddedDigits(text, i, j);
    }
    if IsDigits(text) {
      assert text[..0] == [] && text[0..|text|] == text && text[|text|..] == [];
      StripPaddedDigits(text, 0, |text|);
    }
  }

  lemma StripPaddedDigits(text: string, i: int, j: int)
    requires PaddedDigits(text, i, j)
    ensures Strip(text) == text[i..j]
  {
    assert text == text[..i] + text[i..j] + text[j..];
    StripPadded(text[..i], text[i..j], text[j..]);
  }

  /** Any run of digits, of any length and with any surrounding whitespace,
      passes the text check and is stored without the whitespace. */
  lemma UidTextAcceptsPaddedDigits(before: string, digits: string, after: string)
    requires AllSpace(before) && AllSpace(after) && IsDigits(digits)
    ensures CheckUidText(before + digits + after) == UidAccepted(digits)
  {
    var text := before + digits + after;
    assert text[..|before|] == before && text[|before| + |digits|..] == after;
    assert PaddedDigits(text, |before|, |before| + |digits|);
  }

  /** Text with no digit at all, only whitespace, is rejected. */
  lemma UidTextRejectsBlank(text: string)
    requires AllSpace(text)
    ensures CheckUidText(text) == InvalidUid
  {
    assert text + [] + [] == text;
    StripPadded(text, [], []);
  }

  /** A character that is neither a digit nor whitespace, anywhere in the
      text (`12a`), makes it rejected. */
  lemma UidTextRejectsOther(text: string, k: int)
    requires 0 <= k < |text| && !IsDigit(text[k]) && !IsSpace(text[k])
    ensures CheckUidText(text) == InvalidUid
  {
    forall i, j | 0 <= i <= j <= |text|
      ensures !PaddedDigits(text, i, j)
    {
      OtherNotPadded(text, k, i, j);
    }
  }

  lemma OtherNotPadded(text: string, k: int, i: int, j: int)
    requires 0 <= k < |text| && !IsDigit(text[k]) && !IsSpace(text[k])
    requires 0 <= i <= j <= |text|
    ensures !PaddedDigits(text, i, j)
  {
    if k < i {
      assert text[..i][k] == text[k];
    } else if k < j {
      assert text[i..j][k - i] == text[k];
    } else {
      assert text[j..][k - j] == text[k];
    }
  }

  /** Whitespace between two digits (`12 34`) makes the text rejected. */
  lemma UidTextRejectsInnerSpace(text: string, a: int, k: int, b: int)
    requires 0 <= a < k < b < |text|
    requires IsDigit(text[a]) && IsSpace(text[k]) && IsDigit(text[b])
    ensures CheckUidText(text) == InvalidUid
  {
    forall i, j | 0 <= i <= j <= |text|
      ensures !PaddedDigits(text, i, j)
    {
      InnerSpaceNotPadded(text, a, k, b, i, j);
    }
  }

  lemma InnerSpaceNotPadded(text: string, a: int, k: int, b: int, i: int, j: int)
    requires 0 <= a < k < b < |text| && 0 <= i <= j <= |text|
    requires IsDigit(text[a]) && IsSpace(text[k]) && IsDigit(text[b])
    ensures !PaddedDigits(text, i, j)
  {
    if a < i {
      assert text[..i][a] == text[a];
    } else if b >= j {
      assert text[j..][b - j] == text[b];
    } else {
      assert text[i..j][k - i] == text[k];
    }
  }

  /** Every UID the command accepts, the text path accepts unchanged. */
  lemma LoginStricterThanUidText(args: seq<string>)
    requires |args| > 0 && IsDigits(args[0]) && 8 <= |args[0]| <= 10
    ensures CheckLoginArgs(args) == Accepted(args[0])
    ensures CheckUidText(args[0]) == UidAccepted(args[0])
  {
  }

  /** The converse fails: a 7-digit UID is refused by the command for its
      length but accepted by the text path. */
  lemma UidTextHasNoLengthBound()
    ensures CheckLoginArgs(["1234567"]) == BadLength
    ensures CheckUidText("1234567") == UidAccepted("1234567")
  {
    assert IsDigits("1234567");
  }
}
