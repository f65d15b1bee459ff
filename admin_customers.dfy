/** The customer list of the admin area, `pages/admin/customers.tsx`: the
    search over the user records the server returns (with any field
    possibly missing), the initials in each avatar and the role badge. The
    fetch is not part of this model: the fetched list is a parameter. */
module AdminCustomers {
  import opened Base
  import opened JsText

  /** A `Partial<User>` as the admin list receives it. */
  datatype UserRecord = UserRecord(
    id: Option<int>,
    username: Option<string>,
    email: Option<string>,
    fullName: Option<string>,
    isAdmin: Option<bool>)

  /** `field?.toLowerCase().includes(q)`: a missing field gives `undefined`,
      which is falsy, so it never matches. */
  predicate FieldMatches(field: Option<string>, query: string)
  {
    field.Some? && Includes(ToLowerCase(field.value), ToLowerCase(query))
  }

  predicate MatchesSearch(u: UserRecord, query: string)
  {
    FieldMatches(u.username, query) || FieldMatches(u.email, query) || FieldMatches(u.fullName, query)
  }

  /** `filteredUsers`: `undefined` while nothing is fetched; otherwise the
      users one of whose three fields contains the search, in order. */
  function FilteredUsers(users: Option<seq<UserRecord>>, query: string): (r: Option<seq<UserRecord>>)
    ensures r.Some? <==> users.Some?
    ensures r.Some? ==> IsSubsequence(r.value, users.value)
    ensures r.Some? ==> forall i :: 0 <= i < |r.value| ==> MatchesSearch(r.value[i], query)
    ensures r.Some? ==> forall i :: 0 <= i < |users.value| ==>
      (users.value[i] in r.value <==> MatchesSearch(users.value[i], query))
    ensures r.Some? ==> forall i :: 0 <= i < |users.value| ==>
      multiset(r.value)[users.value[i]] ==
        (if MatchesSearch(users.value[i], query) then multiset(users.value)[users.value[i]] else 0)
  {
    match users
    case None => None
    case Some(us) =>
      var kept := Filter(us, (u: UserRecord) => MatchesSearch(u, query));
      FilterCounts(us, (u: UserRecord) => MatchesSearch(u, query));
      assert forall i :: 0 <= i < |kept| ==> MatchesSearch(kept[i], query);
      Some(kept)
  }

  /** Even the empty search drops a user whose username, email and full
      name are all missing; it keeps every other user. */
  lemma EmptySearchNeedsAField(users: seq<UserRecord>)
    ensures var kept := FilteredUsers(Some(users), "").value;
      forall i :: 0 <= i < |users| ==>
        (users[i] in kept <==> users[i].username.Some? || users[i].email.Some? || users[i].fullName.Some?)
  {
    forall i | 0 <= i < |users|
      ensures MatchesSearch(users[i], "") <==>
        users[i].username.Some? || users[i].email.Some? || users[i].fullName.Some?
    {
      var u := users[i];
      if u.username.Some? { IncludesEmpty(ToLowerCase(u.username.value)); }
      if u.email.Some? { IncludesEmpty(ToLowerCase(u.email.value)); }
      if u.fullName.Some? { IncludesEmpty(ToLowerCase(u.fullName.value)); }
    }
  }

  /** `n[0]` of a piece, which `join('')` renders as nothing when the piece
      is empty (`undefined`). */
  function FirstOrNothing(piece: string): (r: string)
    ensures piece == "" ==> r == ""
    ensures piece != "" ==> r == [piece[0]]
  {
    if piece == "" then "" else piece[..1]
  }

  /** `pieces.map(n => n[0]).join('')` */
  function JoinFirsts(pieces: seq<string>): string
    decreases |pieces|
  {
    if pieces == [] then "" else FirstOrNothing(pieces[0]) + JoinFirsts(pieces[1..])
  }

  /** `getUserInitials(name)`: the upper-cased first characters of the
      words, where runs of spaces, and leading or trailing ones, contribute
      nothing; so the initials hold no space and are no longer than the
      name. */
  function GetUserInitials(name: string): (r: string)
    ensures r == ToUpperCase(WordStarts(name, true))
    ensures |r| <= |name|
    ensures ' ' !in r
  {
    FirstsAreWordStarts(name);
    var w := WordStarts(name, true);
    assert forall i :: 0 <= i < |w| ==> ToUpperCase(w)[i] != ' ' by {
      forall i | 0 <= i < |w|
        ensures ToUpperCase(w)[i] != ' '
      {
        assert w[i] in w;
      }
    }
    ToUpperCase(JoinFirsts(Split(name, ' ')))
  }

  /** The characters of `s` that begin a word: not a space, and first or
      right after a space (`afterSpace` says whether the character before
      `s` was a space, or there was none). */
  function WordStarts(s: string, afterSpace: bool): (r: string)
    ensures |r| <= |s|
    ensures forall c :: c in r ==> c in s && c != ' '
    decreases |s|
  {
    if s == [] then ""
    else (if afterSpace && s[0] != ' ' then [s[0]] else "") + WordStarts(s[1..], s[0] == ' ')
  }

  /** The first letters of all pieces but the first are the word starts
      after the first character; with the first piece's, they are all word
      starts. */
  lemma {:induction false} FirstsAreWordStarts(s: string)
    ensures JoinFirsts(Split(s, ' ')[1..]) == WordStarts(s, false)
    ensures JoinFirsts(Split(s, ' ')) == WordStarts(s, true)
    decreases |s|
  {
    var parts := Split(s, ' ');
    if s != [] {
      FirstsAreWordStarts(s[1..]);
      var rest := Split(s[1..], ' ');
      if s[0] == ' ' {
        assert parts == [""] + rest;
        assert parts[1..] == rest;
      } else {
        assert parts == [[s[0]] + rest[0]] + rest[1..];
        assert parts[1..] == rest[1..];
        assert rest == [rest[0]] + rest[1..];
        assert JoinFirsts(rest) == FirstOrNothing(rest[0]) + JoinFirsts(rest[1..]);
      }
    }
    assert JoinFirsts(parts) == FirstOrNothing(parts[0]) + JoinFirsts(parts[1..]);
  }

  /** The avatar text: the initials of the full name, or of 'User' when the
      full name is missing or empty. */
  function AvatarInitials(fullName: Option<string>): (r: string)
    ensures fullName.None? || fullName == Some("") ==> r == "U"
    ensures fullName.Some? && fullName.value != "" ==> r == ToUpperCase(WordStarts(fullName.value, true))
  {
    if fullName.Some? && fullName.value != "" then
      GetUserInitials(fullName.value)
    else
      FallbackInitial();
      GetUserInitials("User")
  }

  /** The fallback name 'User' has the initial 'U'. */
  lemma FallbackInitial()
    ensures GetUserInitials("User") == "U"
  {
    SplitSingle("User", ' ');
    assert JoinFirsts(["User"]) == "U";
  }

  /** The role badge: its text and its style. */
  datatype Badge = Badge(text: string, variant: string)

  /** `user.isAdmin ? 'Admin' : 'Customer'`, a missing flag being falsy. */
  function RoleBadge(isAdmin: Option<bool>): (b: Badge)
    ensures b.text == "Admin" <==> isAdmin == Some(true)
    ensures b.text == "Customer" <==> isAdmin != Some(true)
    ensures b.variant == "destructive" <==> b.text == "Admin"
  {
    if isAdmin == Some(true) then Badge("Admin", "destructive") else Badge("Customer", "secondary")
  }
}
