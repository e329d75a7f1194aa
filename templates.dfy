/** The per-user template preferences (`user_template_settings`): a map from
    chat user id to a map from category (`profile`, `card`) to the chosen
    template number, read with a default of 1, and the two selector menus
    whose buttons write it. */
module Templates {
  import opened Wrappers
  import opened Text
  import opened CallbackData

  type Settings = map<int, map<string, int>>

  /** The template used when the user has chosen none. */
  const DefaultTemplate: int := 1

  const ProfileCategory: string := "profile"
  const CardCategory: string := "card"

  /** `settings.get(user, {}).get(category, 1)`: the stored choice when
      there is one, and otherwise 1; a result other than 1 is always a
      stored choice. */
  function Lookup(settings: Settings, user: int, category: string): (t: int)
    ensures user in settings && category in settings[user] ==> t == settings[user][category]
    ensures !(user in settings && category in settings[user]) ==> t == DefaultTemplate
    ensures t != DefaultTemplate ==> user in settings && category in settings[user]
  {
    var chosen := if user in settings then settings[user] else map[];
    if category in chosen then chosen[category] else DefaultTemplate
  }

  /** The update of `store_choice`: the user's map, created empty when the
      user has none yet, gets `category` set to `choice`. */
  function Upsert(settings: Settings, user: int, category: string, choice: int): (r: Settings)
    ensures r.Keys == settings.Keys + {user}
    ensures category in r[user] && r[user][category] == choice
    ensures forall c :: c in r[user] && c != category ==> user in settings && c in settings[user] && r[user][c] == settings[user][c]
    ensures user in settings ==> forall c :: c in settings[user] ==> c in r[user]
    ensures forall u :: u in settings && u != user ==> r[u] == settings[u]
  {
    var chosen := if user in settings then settings[user] else map[];
    settings[user := chosen[category := choice]]
  }

  /** A lookup right after an upsert of the same user and category yields
      the stored choice, whatever was there before. */
  lemma LookupUpsertSame(settings: Settings, user: int, category: string, choice: int)
    ensures Lookup(Upsert(settings, user, category, choice), user, category) == choice
  {
  }

  /** Every other (user, category) pair reads as before the upsert:
      categories are independent, and so are users. */
  lemma LookupUpsertOther(settings: Settings, user: int, category: string, choice: int,
                          user': int, category': string)
    requires user' != user || category' != category
    ensures Lookup(Upsert(settings, user, category, choice), user', category')
            == Lookup(settings, user', category')
  {
  }

  /** The data of a selector's buttons: `f"{category}_{i}"` for the
      template numbers 1 to `count`, each of which parses back to its
      category and number, so pressing it is never refused. */
  function MenuData(category: string, count: nat): (data: seq<string>)
    ensures |data| == count
    ensures Separator !in category ==>
              forall i {:trigger ParseTagged(data[i])} :: 0 <= i < count ==> ParseTagged(data[i]) == Some((category, i + 1))
  {
    var data := seq(count, i requires 0 <= i < count => Tagged(category, i + 1));
    if Separator in category then data else TaggedParsesAll(category); data
  }

  /** The profile selector offers templates 1 and 2. */
  const ProfileMenuCount: nat := 2

  /** The card selector offers templates 1 to 5. */
  const CardMenuCount: nat := 5

  /** The profile selector's buttons carry exactly `profile_1` and
      `profile_2`. */
  lemma ProfileMenuLiteral()
    ensures MenuData(ProfileCategory, ProfileMenuCount) == ["profile_1", "profile_2"]
  {
    var data := MenuData(ProfileCategory, ProfileMenuCount);
    assert Decimal(1) == "1" && Decimal(2) == "2";
    assert data[0] == Tagged(ProfileCategory, 1) == "profile_1";
    assert data[1] == Tagged(ProfileCategory, 2) == "profile_2";
  }

  /** The card selector's buttons carry exactly `card_1` to `card_5`. */
  lemma CardMenuLiteral()
    ensures MenuData(CardCategory, CardMenuCount) == ["card_1", "card_2", "card_3", "card_4", "card_5"]
  {
    var data := MenuData(CardCategory, CardMenuCount);
    assert data[0] == "card_1" by { TaggedDigit(CardCategory, 1); }
    assert data[1] == "card_2" by { TaggedDigit(CardCategory, 2); }
    assert data[2] == "card_3" by { TaggedDigit(CardCategory, 3); }
    assert data[3] == "card_4" by { TaggedDigit(CardCategory, 4); }
    assert data[4] == "card_5" by { TaggedDigit(CardCategory, 5); }
    assert data == [data[0], data[1], data[2], data[3], data[4]];
  }

  /** A one-digit number is written as its single digit. */
  lemma TaggedDigit(tag: string, d: nat)
    requires 0 < d < 10
    ensures Tagged(tag, d) == tag + [Separator, DigitChar(d)]
  {
  }

  /** Choosing template `k` of a category through its button, then reading
      that category, yields `k`. */
  lemma ChooseThenLookup(settings: Settings, user: int, category: string, k: nat)
    requires Separator !in category
    ensures ParseTagged(Tagged(category, k)) == Some((category, k))
    ensures Lookup(Upsert(settings, user, category, k), user, category) == k
  {
    TaggedRoundTrip(category, k);
  }
}
