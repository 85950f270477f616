/**
 * The "Collaborators" screen: it fetches every user once, shows a spinner while loading, an error
 * with a retry button when the fetch fails, and otherwise one card per user with the initials of
 * the name, the role and the skills.
 */
module UsersScreen {
  import opened Wrappers
  import opened Text
  import Api
  import Users

  /** A user as the list endpoint sends it; fields the backend leaves null arrive as `None`. */
  datatype ListedUser = ListedUser(id: Option<string>, name: Option<string>, role: Option<string>, skills: Option<seq<string>>)

  /** The JSON view of a stored user that this screen reads. */
  function Listed(u: Users.User): ListedUser
  {
    ListedUser(u.id, u.name, u.role, u.skills)
  }

  /** `pieces.map(n => n[0]).join('')`: the first character of every non-empty piece (an empty
      piece gives `undefined`, which `join` prints as nothing). */
  function FirstChars(pieces: seq<string>): (r: string)
    ensures |r| <= |pieces|
  {
    if pieces == [] then ""
    else (if pieces[0] == "" then "" else [pieces[0][0]]) + FirstChars(pieces[1..])
  }

  /** The avatar text: `name.split(' ').map(n => n[0]).join('')`. */
  function Initials(name: string): string
  {
    FirstChars(Split(name, ' '))
  }

  /** Reference reading of the initials, position by position: every non-space character that
      starts the string or follows a space. `atStart` says whether the previous character was a
      space (or there was none). */
  function WordInitials(s: string, atStart: bool): string
  {
    if s == [] then ""
    else if s[0] == ' ' then WordInitials(s[1..], true)
    else (if atStart then [s[0]] else "") + WordInitials(s[1..], false)
  }

  lemma {:induction false} FirstCharsOfSplit(s: string)
    ensures FirstChars(Split(s, ' ')) == WordInitials(s, true)
    ensures FirstChars(Split(s, ' ')[1..]) == WordInitials(s, false)
  {
    if s != [] {
      var rest := Split(s[1..], ' ');
      FirstCharsOfSplit(s[1..]);
      if s[0] == ' ' {
        assert Split(s, ' ') == [""] + rest;
        assert ([""] + rest)[1..] == rest;
      } else {
        var first := [s[0]] + rest[0];
        assert Split(s, ' ') == [first] + rest[1..];
        assert ([first] + rest[1..])[1..] == rest[1..];
        assert first[0] == s[0];
      }
    }
  }

  /** The initials are the first letters of the space-separated words, empty words skipped, and
      there are never more of them than pieces in the split. */
  lemma InitialsAreWordStarts(name: string)
    ensures Initials(name) == WordInitials(name, true)
    ensures |Initials(name)| <= |Split(name, ' ')|
    ensures forall c :: c in Initials(name) ==> c in name && c != ' '
  {
    FirstCharsOfSplit(name);
    WordInitialsAreNotSpaces(name, true);
  }

  lemma {:induction false} WordInitialsAreNotSpaces(s: string, atStart: bool)
    ensures forall c :: c in WordInitials(s, atStart) ==> c in s && c != ' '
  {
    if s != [] {
      WordInitialsAreNotSpaces(s[1..], true);
      WordInitialsAreNotSpaces(s[1..], false);
    }
  }

  /** One user card. */
  datatype Card = Card(initials: string, name: string, role: Option<string>, skills: seq<string>)

  /** The card as the code builds it: `user.name.split` and `user.skills.map` throw a TypeError
      when the field is null. */
  function CardAsWritten(u: ListedUser): (r: Result<Card, Api.Thrown>)
    ensures r.Failure? <==> u.name.None? || u.skills.None?
  {
    if u.name.None? || u.skills.None? then Failure(Api.TypeError)
    else Success(Card(Initials(u.name.value), u.name.value, u.role, u.skills.value))
  }

  /** The card as intended: a missing name shows no initials and no name, missing skills show no
      tags. */
  function CardFor(u: ListedUser): (c: Card)
    ensures u.name.Some? && u.skills.Some? ==> CardAsWritten(u) == Success(c)
    ensures u.name.None? ==> c.initials == "" && c.name == ""
    ensures u.skills.None? ==> c.skills == []
  {
    var name := if u.name.Some? then u.name.value else "";
    Card(Initials(name), name, u.role, if u.skills.Some? then u.skills.value else [])
  }

  /** Every account created by sign-up has neither name nor skills, so the card as written
      throws for it and the whole list fails to render once such a user exists. */
  lemma SignedUpUserBreaksList(req: Users.SignupRequest, encode: string -> string, id: string)
    ensures CardAsWritten(Listed(Users.NewAccount(req, encode).(id := Some(id)))).Failure?
    ensures CardFor(Listed(Users.NewAccount(req, encode).(id := Some(id)))).initials == ""
  {
    assert Split("", ' ') == [""];
  }

  const FetchFailed := "Failed to fetch users. Please try again later."

  datatype View =
    | Spinner
    | ErrorView(message: string)   // with a Retry button
    | ListView(cards: seq<Card>)

  function Cards(users: seq<ListedUser>): (cards: seq<Card>)
    ensures |cards| == |users| && forall i | 0 <= i < |users| :: cards[i] == CardFor(users[i])
  {
    seq(|users|, i requires 0 <= i < |users| => CardFor(users[i]))
  }

  /** `users.map(...)` with the card as written: the first user without a name or skills throws,
      and the list renders exactly when every user has both, with the corrected cards. */
  function CardsAsWritten(users: seq<ListedUser>): (r: Result<seq<Card>, Api.Thrown>)
    ensures r.Failure? <==> exists i | 0 <= i < |users| :: users[i].name.None? || users[i].skills.None?
    ensures r.Success? ==> r.value == Cards(users)
  {
    if users == [] then Success([])
    else match CardAsWritten(users[0])
      case Failure(e) => Failure(e)
      case Success(card) =>
        match CardsAsWritten(users[1..])
        case Failure(e) =>
          assert exists i | 0 <= i < |users| :: users[i].name.None? || users[i].skills.None? by {
            var k :| 0 <= k < |users[1..]| && (users[1..][k].name.None? || users[1..][k].skills.None?);
            assert users[k + 1] == users[1..][k];
          }
          Failure(e)
        case Success(rest) =>
          assert [card] + rest == Cards(users) by {
            forall i | 0 <= i < |users|
              ensures ([card] + rest)[i] == Cards(users)[i]
            {
              if i > 0 {
                assert users[1..][i - 1] == users[i];
              }
            }
          }
          Success([card] + rest)
  }

  /** What the screen shows: the spinner first, then a truthy error, then the cards. The cards
      are the corrected ones; wherever the list as written renders, they are the same. */
  function Render(loading: bool, error: Option<string>, users: seq<ListedUser>): (v: View)
    ensures v.Spinner? <==> loading
    ensures v.ErrorView? <==> !loading && Truthy(error)
    ensures v.ErrorView? ==> v.message == error.value
    ensures v.ListView? ==> v.cards == Cards(users)
    ensures v.ListView? && CardsAsWritten(users).Success? ==> v.cards == CardsAsWritten(users).value
  {
    if loading then Spinner
    else if Truthy(error) then ErrorView(error.value)
    else ListView(Cards(users))
  }

  class UsersScreenState {
    var users: seq<ListedUser>
    var loading: bool
    var error: Option<string>

    constructor ()
      ensures users == [] && loading && error.None?
    {
      users := [];
      loading := true;
      error := None;
    }

    /** `fetchUsers`; `response` is what `userApi.getUsers()` does. A failure keeps the users
        shown before. */
    method FetchUsers(response: Result<seq<ListedUser>, Api.Thrown>)
      modifies this
      ensures !loading
      ensures response.Success? ==> users == response.value && error.None?
      ensures response.Failure? ==> users == old(users) && error == Some(FetchFailed)
      ensures response.Success? ==> Render(loading, error, users) == ListView(Cards(response.value))
      ensures response.Failure? ==> Render(loading, error, users) == ErrorView(FetchFailed)
    {
      loading := true;
      if response.Success? {
        users := response.value;
        error := None;
      } else {
        error := Some(FetchFailed);
      }
      loading := false;
    }
  }
}
