/** Turning the backend's user record into the UI's `UserDTO`. */
module UserTransformer {
  import opened Text
  import opened Seqs
  import opened BffTypes

  /** The non-empty name parts: `[firstName, lastName].filter(Boolean)`. */
  function NameParts(user: ApiUserResponse): (parts: seq<string>)
  {
    var present := Filter([user.firstName, user.lastName], TruthyStr);
    seq(|present|, k requires 0 <= k < |present| => present[k].value)
  }

  /** `createDisplayName`: the truthy name parts joined by one space, or the
      username when both are missing or empty. */
  function CreateDisplayName(user: ApiUserResponse): string {
    if TruthyStr(user.firstName) || TruthyStr(user.lastName) then Join(NameParts(user), " ")
    else user.username
  }

  /** The four cases of the display name. */
  lemma DisplayNameCases(user: ApiUserResponse)
    ensures var d := CreateDisplayName(user);
      && (TruthyStr(user.firstName) && TruthyStr(user.lastName) ==>
            d == user.firstName.value + " " + user.lastName.value)
      && (TruthyStr(user.firstName) && !TruthyStr(user.lastName) ==> d == user.firstName.value)
      && (!TruthyStr(user.firstName) && TruthyStr(user.lastName) ==> d == user.lastName.value)
      && (!TruthyStr(user.firstName) && !TruthyStr(user.lastName) ==> d == user.username)
  {
    var names := [user.firstName, user.lastName];
    assert names[1..] == [user.lastName];
    assert names[1..][1..] == [];
    var tail := if TruthyStr(user.lastName) then [user.lastName] else [];
    assert Filter(names[1..], TruthyStr) == tail;
    assert Filter(names, TruthyStr) == (if TruthyStr(user.firstName) then [user.firstName] else []) + tail;
    var parts := NameParts(user);
    if TruthyStr(user.firstName) && TruthyStr(user.lastName) {
      assert parts == [user.firstName.value, user.lastName.value];
      JoinTwo(user.firstName.value, user.lastName.value, " ");
    } else if TruthyStr(user.firstName) {
      assert parts == [user.firstName.value];
    } else if TruthyStr(user.lastName) {
      assert parts == [user.lastName.value];
    }
  }

  /** A display name is never empty when the chosen source is not: the
      truthy name parts, or else the username. */
  lemma DisplayNameNonEmpty(user: ApiUserResponse)
    requires user.username != ""
    ensures CreateDisplayName(user) != ""
  {
    DisplayNameCases(user);
  }

  /** `transformUser`: the id becomes its decimal text (which reads back as
      the same number), username, email and avatar are copied, and the user
      is an admin exactly when the role is "admin". `formatMemberSince` is
      the locale rendering of the creation date, given from outside. */
  function TransformUser(user: ApiUserResponse, formatMemberSince: string -> string): (r: UserDTO)
    ensures |r.id| >= 1
    ensures r.id[0] == '-' ==> AllDigits(r.id[1..])
    ensures r.id[0] != '-' ==> AllDigits(r.id)
    ensures ParseInt(r.id) == user.id
    ensures r.username == user.username && r.email == user.email && r.avatarUrl == user.avatar
    ensures r.displayName == CreateDisplayName(user)
    ensures r.isAdmin <==> user.role == "admin"
    ensures r.memberSince == formatMemberSince(user.createdAt)
  {
    IntToStringRoundTrip(user.id);
    UserDTO(
      IntToString(user.id), user.username, CreateDisplayName(user), user.email, user.avatar,
      user.role == "admin", formatMemberSince(user.createdAt))
  }

  /** `transformUsers`: `transformUser` applied to every user, in order. */
  function TransformUsers(users: seq<ApiUserResponse>, formatMemberSince: string -> string): (r: seq<UserDTO>)
    ensures |r| == |users|
    ensures forall k :: 0 <= k < |users| ==> r[k] == TransformUser(users[k], formatMemberSince)
  {
    if users == [] then []
    else [TransformUser(users[0], formatMemberSince)] + TransformUsers(users[1..], formatMemberSince)
  }

  /** Transforming a concatenation transforms each part. */
  lemma {:induction false} TransformUsersAppend(a: seq<ApiUserResponse>, b: seq<ApiUserResponse>, f: string -> string)
    ensures TransformUsers(a + b, f) == TransformUsers(a, f) + TransformUsers(b, f)
  {
    var l, r := TransformUsers(a + b, f), TransformUsers(a, f) + TransformUsers(b, f);
    assert |l| == |r|;
    forall k | 0 <= k < |l| ensures l[k] == r[k] {
      if k < |a| { assert (a + b)[k] == a[k]; } else { assert (a + b)[k] == b[k - |a|]; }
    }
  }
}
