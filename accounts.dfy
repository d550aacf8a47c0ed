/** The personal account of the signed-in user, read from and written to the
    auth user's metadata (packages/features/accounts): the projection of an
    auth user onto an account, the read query and the update mutation. The
    calls into the auth service are described by their outcomes. */
module Accounts {
  import opened Wrappers
  import Text

  /** The `user_metadata` fields the account reads; None stands for a missing
      key and for null alike. */
  datatype Metadata = Metadata(name: Option<string>, avatarUrl: Option<string>)

  /** An auth user as the auth service returns it. */
  datatype AuthUser = AuthUser(id: string, email: Option<string>, metadata: Option<Metadata>)

  /** The account object: `{id, name, picture_url}`, picture_url null as None. */
  datatype Account = Account(id: string, name: string, pictureUrl: Option<string>)

  /** `user.user_metadata?.name`. */
  function MetadataName(u: AuthUser): (r: Option<string>)
    ensures u.metadata.None? ==> r.None?
    ensures u.metadata.Some? ==> r == u.metadata.value.name
  {
    if u.metadata.Some? then u.metadata.value.name else None
  }

  /** `user.user_metadata?.avatar_url`. */
  function MetadataAvatar(u: AuthUser): Option<string>
  {
    if u.metadata.Some? then u.metadata.value.avatarUrl else None
  }

  /** `user.email?.split('@')[0]`: present exactly when the email is, and then
      a prefix of it that holds no '@'. */
  function EmailLocalPart(u: AuthUser): (r: Option<string>)
    ensures r.Some? <==> u.email.Some?
    ensures r.Some? ==> r.value == Text.BeforeFirst(u.email.value, "@")
    ensures r.Some? ==> |r.value| <= |u.email.value| && r.value == u.email.value[..|r.value|] && '@' !in r.value
  {
    if u.email.Some? then
      var e := u.email.value;
      var n := Text.BeforeFirst(e, "@");
      assert '@' !in n by {
        forall k | 0 <= k < |n| ensures n[k] != '@' {
          assert !Text.OccursAt(e, "@", k);
          assert e[k..k + 1] == [e[k]];
        }
      }
      Some(n)
    else None
  }

  /** `name || email?.split('@')[0] || ''`: the metadata name when it is
      non-empty, else the part of the email before its first '@' when that is
      non-empty, else the empty string. */
  function DisplayName(u: AuthUser): (n: string)
    ensures Text.Truthy(MetadataName(u)) ==> n == MetadataName(u).value
    ensures !Text.Truthy(MetadataName(u)) && n != [] ==>
      u.email.Some? && |n| <= |u.email.value| && n == u.email.value[..|n|] && '@' !in n
    ensures !Text.Truthy(MetadataName(u)) && u.email.Some? ==> n == Text.BeforeFirst(u.email.value, "@")
    ensures !Text.Truthy(MetadataName(u)) && u.email.None? ==> n == []
  {
    if Text.Truthy(MetadataName(u)) then MetadataName(u).value
    else if Text.Truthy(EmailLocalPart(u)) then EmailLocalPart(u).value
    else []
  }

  /** `user_metadata?.avatar_url || null`. */
  function Picture(u: AuthUser): (p: Option<string>)
    ensures p.Some? <==> Text.Truthy(MetadataAvatar(u))
    ensures p.Some? ==> p == MetadataAvatar(u)
  {
    if Text.Truthy(MetadataAvatar(u)) then MetadataAvatar(u) else None
  }

  /** The account object built from an auth user. */
  function Project(u: AuthUser): (a: Account)
    ensures a.id == u.id && a.name == DisplayName(u) && a.pictureUrl == Picture(u)
  {
    Account(u.id, DisplayName(u), Picture(u))
  }

  /** The name is empty exactly when there is no metadata name and no email
      text before an '@': no email, an empty one, or one that starts with '@'. */
  lemma DisplayNameEmptyIff(u: AuthUser)
    ensures DisplayName(u) == [] <==>
      !Text.Truthy(MetadataName(u)) && (u.email.None? || u.email.value == [] || u.email.value[0] == '@')
  {
    if !Text.Truthy(MetadataName(u)) && u.email.Some? {
      var e := u.email.value;
      var n := Text.BeforeFirst(e, "@");
      if e != [] && e[0] == '@' {
        assert e[0..1] == "@";
        assert Text.OccursAt(e, "@", 0);
      }
      if e != [] && n == [] {
        assert Text.OccursAt(e, "@", 0);
        assert e[0..1] == [e[0]];
      }
    }
  }

  /** An error the auth service returned. */
  datatype AuthError = AuthError(message: string)

  /** `{ data: { user }, error }` of `auth.getUser()`. */
  datatype GetUserOutcome = GetUserOutcome(user: Option<AuthUser>, error: Option<AuthError>)

  /** What getAccount throws: the returned error, or `new Error('User not found')`. */
  datatype AccountError = ReturnedError(error: AuthError) | UserNotFound

  /** AccountsApi.getAccount(id): the account of the signed-in user. It throws
      the returned error when there is one, and "User not found" when there is
      neither an error nor a user. */
  function GetAccount(id: string, o: GetUserOutcome): (r: Result<Account, AccountError>)
    ensures o.error.Some? ==> r == Err(ReturnedError(o.error.value))
    ensures o.error.None? && o.user.None? ==> r == Err(UserNotFound)
    ensures o.error.None? && o.user.Some? ==> r == Ok(Project(o.user.value))
  {
    if o.error.Some? || o.user.None? then
      Err(if o.error.Some? then ReturnedError(o.error.value) else UserNotFound)
    else Ok(Project(o.user.value))
  }

  /** The id argument of getAccount plays no part: the account is always the
      signed-in user's, whichever id is asked for. */
  lemma GetAccountIgnoresId(id1: string, id2: string, o: GetUserOutcome)
    ensures GetAccount(id1, o) == GetAccount(id2, o)
    ensures GetAccount(id1, o).Ok? ==> GetAccount(id1, o).value.id == o.user.value.id
  {
  }
}

/** usePersonalAccountData and useRevalidatePersonalAccountDataQuery
    (use-personal-account-data.ts). */
module PersonalAccountData {
  import opened Wrappers
  import opened Accounts
  import Text

  /** `['account:data', userId]`. */
  function QueryKey(userId: string): (k: seq<string>)
    ensures |k| == 2 && k[0] == "account:data" && k[1] == userId
  {
    ["account:data", userId]
  }

  /** `!!userId && !!user`. */
  predicate Enabled(userId: string, user: Option<AuthUser>)
  {
    userId != [] && user.Some?
  }

  /** The query function: null without a user id or a user, the projected
      account otherwise. */
  function QueryFn(userId: string, user: Option<AuthUser>): (r: Option<Account>)
    ensures userId == [] || user.None? ==> r.None?
    ensures userId != [] && user.Some? ==> r == Some(Project(user.value))
  {
    if userId == [] || user.None? then None else Some(Project(user.value))
  }

  /** The query is enabled exactly when its function would produce an account. */
  lemma EnabledIffQueryYields(userId: string, user: Option<AuthUser>)
    ensures Enabled(userId, user) <==> QueryFn(userId, user).Some?
  {
  }

  /** The read query projects the same way getAccount does. */
  lemma QueryMatchesGetAccount(userId: string, id: string, u: AuthUser)
    requires userId != []
    ensures QueryFn(userId, Some(u)) == Some(GetAccount(id, GetUserOutcome(Some(u), None)).value)
  {
  }

  /** The `partialAccount` argument; null fields as None. */
  datatype PartialAccount = PartialAccount(id: Option<string>, name: Option<string>, pictureUrl: Option<string>)

  /** The initial data object: id, name and picture_url copied as given. */
  datatype InitialAccount = InitialAccount(id: string, name: Option<string>, pictureUrl: Option<string>)

  /** `partialAccount?.id ? {...} : undefined`. */
  function InitialData(partial: Option<PartialAccount>): (r: Option<InitialAccount>)
    ensures r.Some? <==> partial.Some? && Text.Truthy(partial.value.id)
    ensures r.Some? ==> (r.value.id == partial.value.id.value
      && r.value.name == partial.value.name && r.value.pictureUrl == partial.value.pictureUrl)
  {
    if partial.Some? && Text.Truthy(partial.value.id) then
      Some(InitialAccount(partial.value.id.value, partial.value.name, partial.value.pictureUrl))
    else None
  }

  /** The key useRevalidatePersonalAccountDataQuery invalidates for a user; it
      spells out the same `['account:data', userId]` literal as the query. */
  function RevalidateKey(userId: string): (k: seq<string>)
    ensures |k| == 2 && k[0] == "account:data" && k[1] == userId
  {
    QueryKey(userId)
  }

  /** Revalidation hits exactly the query of that user, and no other user's. */
  lemma RevalidateHitsQuery(userId: string, other: string)
    ensures RevalidateKey(userId) == QueryKey(userId)
    ensures RevalidateKey(userId) == QueryKey(other) <==> other == userId
  {
    if RevalidateKey(userId) == QueryKey(other) {
      assert QueryKey(other)[1] == other;
    }
  }
}

/** useUpdateAccountData (use-update-account.ts). */
module UpdateAccount {
  import opened Wrappers
  import opened Accounts
  import Text
  import PersonalAccountData

  /** A JavaScript field that may be left out, set to null or set to a value. */
  datatype Field = Undefined | Null | Value(value: string)

  /** The mutation's argument: `{ name?: string; picture_url?: string | null }`. */
  datatype UpdateData = UpdateData(name: Option<string>, pictureUrl: Field)

  /** The `data` object sent to `auth.updateUser`. */
  datatype Payload = Payload(name: Option<string>, avatarUrl: Field)

  /** `{ name: data.name, avatar_url: data.picture_url }`. */
  function ToPayload(d: UpdateData): (p: Payload)
    ensures p.name == d.name && p.avatarUrl == d.pictureUrl
  {
    Payload(d.name, d.pictureUrl)
  }

  /** The account the mutation resolves with; `id` is undefined without a user. */
  datatype UpdatedAccount = UpdatedAccount(id: Option<string>, name: string, pictureUrl: Option<string>)

  /** `{ data: userData, error }` of `auth.updateUser`. */
  datatype UpdateOutcome = UpdateOutcome(user: Option<AuthUser>, error: Option<AuthError>)

  /** The result of the mutation function: the payload it sent, and the thrown
      error or the projected account. */
  datatype Mutation = Mutation(sent: Payload, result: Result<UpdatedAccount, AuthError>)

  function MutationFn(d: UpdateData, o: UpdateOutcome): (m: Mutation)
    ensures m.sent == ToPayload(d)
    ensures o.error.Some? <==> m.result.Err?
    ensures o.error.Some? ==> m.result.error == o.error.value
    ensures o.error.None? && o.user.Some? ==> m.result == Ok(UpdatedAccount(
      Some(o.user.value.id), Project(o.user.value).name, Project(o.user.value).pictureUrl))
    ensures o.error.None? && o.user.None? ==> m.result == Ok(UpdatedAccount(None, [], None))
  {
    var result :=
      if o.error.Some? then Err(o.error.value)
      else if o.user.None? then Ok(UpdatedAccount(None, [], None))
      else Ok(UpdatedAccount(Some(o.user.value.id), DisplayName(o.user.value), Picture(o.user.value)));
    Mutation(ToPayload(d), result)
  }

  /** `['account:data', accountId]`, the literal the read query uses too. */
  function MutationKey(accountId: string): (k: seq<string>)
    ensures |k| == 2 && k[0] == "account:data" && k[1] == accountId
  {
    PersonalAccountData.QueryKey(accountId)
  }

  /** The mutation and the read query of the same account share one key. */
  lemma MutationKeyIsQueryKey(accountId: string)
    ensures MutationKey(accountId) == PersonalAccountData.QueryKey(accountId)
  {
  }

  /** How the auth service stores the sent metadata: a key left undefined is
      not serialised and keeps its value, null clears it, a value replaces it. */
  function Merge(m: Option<Metadata>, p: Payload): Metadata
  {
    var prev := if m.Some? then m.value else Metadata(None, None);
    Metadata(
      if p.name.Some? then p.name else prev.name,
      match p.avatarUrl
      case Undefined => prev.avatarUrl
      case Null => None
      case Value(v) => Some(v))
  }

  /** Assuming the service merges the metadata that way: after a successful
      update a non-empty new name and picture are what the result shows, a
      picture set to null or to "" reads back as null, and an update that
      leaves a field undefined keeps what the account showed before. */
  lemma UpdateThenRead(u: AuthUser, d: UpdateData)
    ensures var updated := u.(metadata := Some(Merge(u.metadata, ToPayload(d))));
      var r := MutationFn(d, UpdateOutcome(Some(updated), None)).result;
      && r.Ok? && r.value.id == Some(u.id)
      && (Text.Truthy(d.name) ==> r.value.name == d.name.value)
      && (d.pictureUrl.Value? && d.pictureUrl.value != [] ==> r.value.pictureUrl == Some(d.pictureUrl.value))
      && (d.pictureUrl.Null? || d.pictureUrl == Value([]) ==> r.value.pictureUrl.None?)
      && (d.name.None? ==> r.value.name == DisplayName(u))
      && (d.pictureUrl.Undefined? ==> r.value.pictureUrl == Picture(u))
  {
    var updated := u.(metadata := Some(Merge(u.metadata, ToPayload(d))));
    assert MetadataName(updated) == (if d.name.Some? then d.name else MetadataName(u));
    assert d.pictureUrl.Undefined? ==> MetadataAvatar(updated) == MetadataAvatar(u);
    assert EmailLocalPart(updated) == EmailLocalPart(u);
  }
}
