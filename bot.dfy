/** The bot's handlers over its in-memory state: the UID map
    (`user_uid_map`), the template preferences (`user_template_settings`)
    and each user's `awaiting_uid` flag. Chat replies become the returned
    outcome values; the calls into the game-data and card-rendering
    services are the functions of an `Enka` value passed in. */
module Bot {
  import opened Wrappers
  import opened Text
  import opened Uid
  import opened CallbackData
  import opened Templates
  import opened Keyboard
  import opened Cards

  /** The external services, as functions of what they are called with. */
  datatype Enka = Enka(
    showcase: string -> Result<seq<Character>, string>,      // fetch_showcase(int(uid)).characters
    renderProfile: (string, int) -> Outcome<string>,         // ENC(uid).profile(teamplate=t)
    renderBuilds: (string, int) -> Result<seq<Card>, string>) // ENC(uid).creat(template=t).card

  datatype ProfileOutcome =
    | ProfileFailed(reason: string)  // "Failed to fetch profile or generate card: ..."
    | NoCharacters                   // "No characters found or profile is private."
    | ProfileCard(uid: string, template: int, keyboard: seq<seq<Button>>)

  datatype MycOutcome = UidNotLinked | MycProfile(profile: ProfileOutcome)

  datatype LoginOutcome =
    | LoginUsage                     // "Usage: /genshinlogin <numeric_uid>"
    | LoginBadLength                 // "UID length should be 8 to 10 digits."
    | LoginLinked(uid: string, profile: ProfileOutcome)

  datatype UidTextOutcome =
    | NotAwaiting                    // the message is ignored
    | UidRejected                    // "Invalid UID. Use digits only."
    | UidLinked(uid: string, profile: ProfileOutcome)

  datatype ChoiceOutcome = InvalidSelection | ChoiceStored(category: string, choice: nat)

  datatype BuildFailure = BuildsFailed(message: string) | MalformedData

  datatype BuildOutcome =
    | BuildUidNotSet                 // "UID not set. Please use /genshinlogin first."
    | BuildFailed(failure: BuildFailure)
    | NoImage(name: string)          // "No image found for <name>."
    | BuildCard(name: string, template: int)
    | CharacterNotFound              // "Character not found in your profile."

  class BotState {
    var uids: map<int, string>
    var templates: Settings
    /** `context.user_data["awaiting_uid"]`, per chat user. */
    var awaitingUid: map<int, bool>

    /** Every linked UID is a non-empty string of digits. */
    ghost predicate Valid()
      reads this
    {
      forall u :: u in uids ==> IsDigits(uids[u])
    }

    constructor ()
      ensures Valid()
      ensures uids == map[] && templates == map[] && awaitingUid == map[]
    {
      uids := map[];
      templates := map[];
      awaitingUid := map[];
    }

    /** `context.user_data.get("awaiting_uid")` is truthy. */
    predicate Awaiting(user: int)
      reads this
    {
      user in awaitingUid && awaitingUid[user]
    }

    /** What `generate_profile_card` reports for `uid` on behalf of `user`:
        the fetch error; no characters; the render error; or the card with
        the user's profile template and the keyboard of the first twelve
        characters in rows of four. */
    ghost predicate ProfileReported(o: ProfileOutcome, user: int, uid: string, enka: Enka)
      reads this
    {
      match enka.showcase(uid)
      case Failure(e) => o == ProfileFailed(e)
      case Success(characters) =>
        if characters == [] then o == NoCharacters
        else
          var t := Lookup(templates, user, ProfileCategory);
          match enka.renderProfile(uid, t)
          case Fail(e) => o == ProfileFailed(e)
          case Pass => o == ProfileCard(uid, t, Rows(Buttons(FirstCharacters(characters))))
    }

    method GenerateProfileCard(user: int, uid: string, enka: Enka) returns (o: ProfileOutcome)
      ensures ProfileReported(o, user, uid, enka)
      ensures o.ProfileCard? ==> 0 < |o.keyboard| <= MaxButtons / RowWidth
    {
      match enka.showcase(uid) {
        case Failure(e) =>
          o := ProfileFailed(e);
        case Success(characters) =>
          if characters == [] {
            o := NoCharacters;
          } else {
            var t := Lookup(templates, user, ProfileCategory);
            match enka.renderProfile(uid, t) {
              case Fail(e) =>
                o := ProfileFailed(e);
              case Pass =>
                var keyboard := LayoutKeyboard(characters);
                o := ProfileCard(uid, t, keyboard);
            }
          }
      }
    }

    /** `/myc`: the profile of the linked UID, or a reminder to link one. */
    method Myc(user: int, enka: Enka) returns (o: MycOutcome)
      ensures user !in uids <==> o == UidNotLinked
      ensures user in uids ==> o.MycProfile? && ProfileReported(o.profile, user, uids[user], enka)
    {
      if user !in uids {
        o := UidNotLinked;
      } else {
        var profile := GenerateProfileCard(user, uids[user], enka);
        o := MycProfile(profile);
      }
    }

    /** `/genshinlogin <uid>`: a missing, non-numeric or wrongly sized
        argument is refused and changes nothing; an accepted UID replaces
        the user's entry, and only it, before the profile is fetched. */
    method GenshinLogin(user: int, args: seq<string>, enka: Enka) returns (o: LoginOutcome)
      requires Valid()
      modifies this
      ensures Valid()
      ensures templates == old(templates) && awaitingUid == old(awaitingUid)
      ensures CheckLoginArgs(args) == Usage ==> o == LoginUsage && uids == old(uids)
      ensures CheckLoginArgs(args) == BadLength ==> o == LoginBadLength && uids == old(uids)
      ensures CheckLoginArgs(args).Accepted? ==>
                && o.LoginLinked? && o.uid == args[0]
                && uids == old(uids)[user := args[0]]
                && ProfileReported(o.profile, user, args[0], enka)
    {
      match CheckLoginArgs(args) {
        case Usage =>
          o := LoginUsage;
        case BadLength =>
          o := LoginBadLength;
        case Accepted(uid) =>
          uids := uids[user := uid];
          var profile := GenerateProfileCard(user, uid, enka);
          o := LoginLinked(uid, profile);
      }
    }

    /** A plain text message: ignored unless a UID is awaited; text that is
        not digits once stripped is refused and changes nothing; digits of
        any length are stored, the flag is cleared and the profile fetched. */
    method HandleUid(user: int, text: string, enka: Enka) returns (o: UidTextOutcome)
      requires Valid()
      modifies this
      ensures Valid()
      ensures templates == old(templates)
      ensures !old(Awaiting(user)) ==>
                o == NotAwaiting && uids == old(uids) && awaitingUid == old(awaitingUid)
      ensures old(Awaiting(user)) && CheckUidText(text) == InvalidUid ==>
                o == UidRejected && uids == old(uids) && awaitingUid == old(awaitingUid)
      ensures old(Awaiting(user)) && CheckUidText(text).UidAccepted? ==>
                var uid := CheckUidText(text).uid;
                && o.UidLinked? && o.uid == uid && IsDigits(uid)
                && uids == old(uids)[user := uid]
                && awaitingUid == old(awaitingUid)[user := false]
                && ProfileReported(o.profile, user, uid, enka)
    {
      if !Awaiting(user) {
        return NotAwaiting;
      }
      match CheckUidText(text) {
        case InvalidUid =>
          o := UidRejected;
        case UidAccepted(uid) =>
          uids := uids[user := uid];
          awaitingUid := awaitingUid[user := false];
          var profile := GenerateProfileCard(user, uid, enka);
          o := UidLinked(uid, profile);
      }
    }

    /** A template button press: malformed data is refused and changes
        nothing; otherwise the user's map is created if missing and the one
        category is set. */
    method StoreChoice(user: int, data: string) returns (o: ChoiceOutcome)
      modifies this
      ensures uids == old(uids) && awaitingUid == old(awaitingUid)
      ensures ParseTagged(data).None? ==> o == InvalidSelection && templates == old(templates)
      ensures ParseTagged(data).Some? ==>
                var (category, choice) := ParseTagged(data).value;
                o == ChoiceStored(category, choice)
                && templates == Upsert(old(templates), user, category, choice)
    {
      match ParseTagged(data) {
        case None =>
          o := InvalidSelection;
        case Some((category, choice)) =>
          if user !in templates {
            templates := templates[user := map[]];
          }
          templates := templates[user := templates[user][category := choice]];
          o := ChoiceStored(category, choice);
      }
    }

    /** A character button press: needs a linked UID; renders the build
        cards with the user's card template; decodes the pressed id; and
        reports the first card with that id, or that none matched. */
    method CharacterCallback(user: int, data: string, enka: Enka) returns (o: BuildOutcome)
      ensures user !in uids || uids[user] == "" <==> o == BuildUidNotSet
      ensures user in uids && uids[user] != "" ==>
                var t := Lookup(templates, user, CardCategory);
                match enka.renderBuilds(uids[user], t)
                case Failure(e) => o == BuildFailed(BuildsFailed(e))
                case Success(cards) =>
                  match CharId(data)
                  case None => o == BuildFailed(MalformedData)
                  case Some(id) =>
                    && (o == CharacterNotFound <==> forall j :: 0 <= j < |cards| ==> cards[j].id != id)
                    && forall k: nat :: IsFirstMatch(cards, id, k) ==>
                         o == if cards[k].hasImage then BuildCard(cards[k].name, t) else NoImage(cards[k].name)
    {
      if user !in uids || uids[user] == "" {
        return BuildUidNotSet;
      }
      var uid := uids[user];
      var t := Lookup(templates, user, CardCategory);
      match enka.renderBuilds(uid, t) {
        case Failure(e) =>
          o := BuildFailed(BuildsFailed(e));
        case Success(cards) =>
          match CharId(data) {
            case None =>
              o := BuildFailed(MalformedData);
            case Some(id) =>
              var found := FindCard(cards, id);
              match found {
                case None =>
                  o := CharacterNotFound;
                case Some(k) =>
                  forall k': nat | IsFirstMatch(cards, id, k')
                    ensures k' == k
                  {
                    FirstMatchUnique(cards, id, k', k);
                  }
                  var card := cards[k];
                  o := if card.hasImage then BuildCard(card.name, t) else NoImage(card.name);
              }
          }
      }
    }
  }
}
