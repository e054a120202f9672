/** The account-selection rule of `Api::login` (lib/Api.php:45-60). */
module Accounts {
  import opened Wrappers

  /** An account of the user profile; `id` is absent or `null` when unset. */
  datatype Account = Account(id: Option<string>, details: map<string, string>)

  /** The user profile; a missing `accounts` entry reads as no accounts. */
  datatype User = User(accounts: seq<Account>, details: map<string, string>)

  const NO_ACCOUNT: string := "Unable to find account for user, will not be able to get data"
  const NO_ACCOUNT_ID: string := "Unable to determine accountId, this is not good"

  /** What `login` leaves in `$this->user` and `$this->accountId`, and what
      it returns or throws. */
  datatype Login = Login(user: User, accountId: Option<string>, result: Result<User>)

  /** `login` given the profile `getUser()` returned and the account id held
      before: store the profile, shift its first account off, and take that
      account's id. The shift happens before the id is checked, so a failed
      check leaves the shortened profile stored. */
  function LoginWith(profile: User, accountId: Option<string>): (l: Login)
    ensures l.result.Ok? ==> l.result.value == l.user
  {
    if profile.accounts == [] then
      Login(profile, accountId, Err(Exception(NO_ACCOUNT)))
    else
      var shifted := profile.(accounts := profile.accounts[1..]);
      var account := profile.accounts[0];
      if account.id.Some? then Login(shifted, account.id, Ok(shifted))
      else Login(shifted, accountId, Err(Exception(NO_ACCOUNT_ID)))
  }

  /** `login` succeeds exactly when the first account has an id; it then
      selects that account and returns the profile without it. With no
      accounts, or a first account without an id, it throws and keeps the
      account id it had. */
  lemma LoginSelectsFirstAccount(profile: User, accountId: Option<string>)
    ensures var l := LoginWith(profile, accountId);
      && (l.result.Ok? <==> |profile.accounts| > 0 && profile.accounts[0].id.Some?)
      && (l.result.Ok? ==> l.accountId == profile.accounts[0].id
                           && l.result.value.accounts == profile.accounts[1..]
                           && l.result.value.details == profile.details)
      && (|profile.accounts| == 0 ==> l.result == Err(Exception(NO_ACCOUNT)) && l.user == profile)
      && (|profile.accounts| > 0 && profile.accounts[0].id.None? ==>
            l.result == Err(Exception(NO_ACCOUNT_ID)) && l.user.accounts == profile.accounts[1..])
      && (l.result.Err? ==> l.accountId == accountId)
  {
  }

  /** Accounts 7 and 9 select 7; no accounts, or a first account without an
      id, throw. */
  lemma LoginExamples(details: map<string, string>)
    ensures LoginWith(User([Account(Some("7"), map[]), Account(Some("9"), map[])], details), None).accountId
            == Some("7")
    ensures LoginWith(User([], details), None).result == Err(Exception(NO_ACCOUNT))
    ensures LoginWith(User([Account(None, map[])], details), None).result == Err(Exception(NO_ACCOUNT_ID))
  {
  }
}
